/** What every run of the batch runner keeps: no lost updates, the verdict of a resume, and the scheduler's bounds. */
module BatchSafety {
  import opened Common
  import opened Session
  import opened BatchRunner
  import opened BatchHistory
  import ScanPhase
  import Single = SingleRunner

  // ---------- The invariant ----------

  predicate InResume(main: Main) {
    main.Looping? || main.Marking? || main.Draining? || main.Closing? || main.Deciding?
  }

  /** The worker's future is in the coordinator's active set. */
  predicate Busy(worker: Worker) { Live(worker) || worker.Ended? || worker.Withdrawn? }

  predicate NoneLive(workers: seq<Worker>) { forall i :: 0 <= i < |workers| ==> !Live(workers[i]) }

  /** Futures are cancelled only when the pool is shut down. */
  predicate NoneWithdrawn(workers: seq<Worker>) { forall i :: 0 <= i < |workers| ==> !workers[i].Withdrawn? }

  predicate WorkersInv(cfg: Config, c: Checkpoint, workers: seq<Worker>) {
    |workers| == |c.endpoints| &&
    forall i :: 0 <= i < |workers| ==> WorkerInv(cfg, c.plan, c.endpoints[i], workers[i])
  }

  /** What the outcome of a worker, or its absence, says about its endpoint. */
  predicate SettledAt(plan: Plan, p: Progress, worker: Worker, queued: bool, excused: bool) {
    match worker
    case Idle => p.error == None && (queued || !NeedsWork(p, plan))
    case Reaped(failed) => if failed then p.error.Some? || excused else !NeedsWork(p, plan)
    case Withdrawn => excused
    case _ => true
  }

  /** A failed worker whose error is not on record: the resume is cancelled in time, or the error is being recorded. */
  predicate Excused(main: Main, cancel: bool, i: nat) {
    (cancel && !main.Deciding?) || (main.Marking? && main.endpoint == i)
  }

  ghost predicate SettledInv(c: Checkpoint, workers: seq<Worker>, queued: seq<nat>, main: Main, cancel: bool) {
    |workers| == |c.endpoints| &&
    forall i: nat :: i < |workers| ==>
      SettledAt(c.plan, c.endpoints[i], workers[i], i in queued, Excused(main, cancel, i))
  }

  ghost predicate QueueInv(workers: seq<Worker>, q: Queue) {
    && NoRepeats(q.queued) && |q.active| <= q.effective
    && (forall i: nat :: i in q.queued ==> i < |workers| && workers[i].Idle?)
    && (forall i: nat :: i in q.active <==> i < |workers| && Busy(workers[i]))
  }

  ghost predicate StartsInv(workers: seq<Worker>, queued: seq<nat>, starts: seq<nat>, needing: set<nat>) {
    && NoRepeats(starts)
    && (forall i: nat :: i in starts <==> i < |workers| && !workers[i].Idle?)
    && (forall i: nat :: i in needing <==> i in queued || i in starts)
  }

  predicate MainInv(c: Checkpoint, main: Main, workers: seq<Worker>, q: Queue, starts: seq<nat>, cancel: bool) {
    match main
    case Down => NoneLive(workers)
    case Loaded(d) => d == c && c.status != Completed && NoneLive(workers)
    case Admitted(d) => d == c && c.status != Completed && NoneLive(workers)
    case Looping => NoneWithdrawn(workers)
    case Marking(i, text) =>
      && NoneWithdrawn(workers) && i < |workers| && workers[i] == Reaped(true)
      && ScanPhase.TextOk(ScanPhase.ErrorFault(text))
    case Draining => cancel || (q.queued == [] && q.active == {})
    case Closing => NoneLive(workers) && (cancel || (q.queued == [] && q.active == {}))
    case Deciding => NoneLive(workers) && q.queued == [] && q.active == {}
  }

  /** Whoever holds the state lock holds a snapshot that is still what the store loads. */
  predicate LockInv(c: Checkpoint, lock: Option<Held>, workers: seq<Worker>, main: Main) {
    lock.Some? ==>
      && lock.value.snapshot == c
      && match lock.value.owner
         case ByWorker(i) => i < |workers| && Wants(workers[i])
         case ByMain => main.Marking?
  }

  ghost predicate RoundInv(cfg: Config, c: Checkpoint, w: World) {
    && c.status == Running && WorkersInv(cfg, c, w.workers)
    && SettledInv(c, w.workers, w.queue.queued, w.main, w.cancel)
    && QueueInv(w.workers, w.queue) && StartsInv(w.workers, w.queue.queued, w.starts, w.needing)
    && w.queue.effective <= c.plan.threads && w.queue.effective <= c.plan.targetWorkers
    && (w.queue.queued != [] ==> 1 <= w.queue.effective)
  }

  ghost predicate VolatileInv(cfg: Config, c: Checkpoint, w: World) {
    && |w.workers| == |c.endpoints| && MainInv(c, w.main, w.workers, w.queue, w.starts, w.cancel)
    && LockInv(c, w.lock, w.workers, w.main)
    && (c.status == Completed ==> w.main.Down?)
    && (InResume(w.main) ==> RoundInv(cfg, c, w))
  }

  ghost predicate Inv(cfg: Config, w: World) {
    ValidConfig(cfg) &&
    match w.store
    case None => w.(cancel := false) == EMPTY_WORLD
    case Some(c) => StoreInv(c, w.log) && VolatileInv(cfg, c, w)
  }

  // ---------- Steps that leave the store alone ----------

  /** A live worker that goes on, and stays in its store call if it is in one, disturbs nothing. */
  lemma WorkerMoves(cfg: Config, c: Checkpoint, w: World, i: nat, next: Worker)
    requires VolatileInv(cfg, c, w) && i < |w.workers| && Live(w.workers[i])
    requires (Live(next) || next.Ended?) && WorkerInv(cfg, c.plan, c.endpoints[i], next)
    requires Wants(w.workers[i]) ==> Wants(next)
    ensures VolatileInv(cfg, c, w.(workers := w.workers[i := next]))
  {
    var workers := w.workers[i := next];
    assert WorkersInv(cfg, c, workers);
    assert SettledInv(c, workers, w.queue.queued, w.main, w.cancel);
    assert QueueInv(workers, w.queue);
    assert StartsInv(workers, w.queue.queued, w.starts, w.needing);
  }

  lemma ActMoves(cfg: Config, c: Checkpoint, w: World, i: nat, act: Act)
    requires ValidConfig(cfg) && VolatileInv(cfg, c, w) && i < |w.workers| && ValidProgress(c.endpoints[i])
    requires CanAct(cfg, c.endpoints[i], w.workers[i], act)
    ensures var next := Acted(cfg, c.plan, c.endpoints[i], w.workers[i], act);
      VolatileInv(cfg, c, w.(workers := w.workers[i := next]))
  {
    var p, worker := c.endpoints[i], w.workers[i];
    assert Live(worker);
    ActKeepsInv(cfg, c.plan, p, worker, act);
    var next := Acted(cfg, c.plan, p, worker, act);
    if Wants(worker) {
      WantsThroughAct(cfg, p, worker, act, c.plan);
    }
    WorkerMoves(cfg, c, w, i, next);
  }

  /** A worker that is waiting for or inside a store call does not leave it by an act of its own. */
  lemma WantsThroughAct(cfg: Config, p: Progress, worker: Worker, act: Act, plan: Plan)
    requires CanAct(cfg, p, worker, act) && Wants(worker)
    ensures Wants(Acted(cfg, plan, p, worker, act))
  {
  }

  lemma HeadLeaves(queued: seq<nat>)
    requires NoRepeats(queued) && queued != []
    ensures NoRepeats(queued[1..]) && queued[0] !in queued[1..]
    ensures forall i: nat :: i in queued <==> i == queued[0] || i in queued[1..]
  {
    NoRepeatsAppend([queued[0]], queued[1..]);
    assert [queued[0]] + queued[1..] == queued;
    assert queued[0] in Elems([queued[0]]);
  }

  lemma SubmitQueue(workers: seq<Worker>, q: Queue)
    requires QueueInv(workers, q) && q.queued != [] && |q.active| < q.effective && q.queued[0] < |workers|
    ensures var i := q.queued[0];
      QueueInv(workers[i := Submitted], q.(queued := q.queued[1..], active := q.active + {i}))
  {
    HeadLeaves(q.queued);
  }

  lemma SubmitStarts(workers: seq<Worker>, queued: seq<nat>, starts: seq<nat>, needing: set<nat>)
    requires StartsInv(workers, queued, starts, needing) && NoRepeats(queued) && queued != []
    requires queued[0] < |workers| && workers[queued[0]].Idle?
    ensures StartsInv(workers[queued[0] := Submitted], queued[1..], starts + [queued[0]], needing)
  {
    HeadLeaves(queued);
    NoRepeatsAppend(starts, [queued[0]]);
  }

  lemma SubmitMoves(cfg: Config, c: Checkpoint, w: World)
    requires VolatileInv(cfg, c, w) && w.main.Looping? && w.queue.queued != []
    requires |w.queue.active| < w.queue.effective && w.queue.queued[0] < |w.workers|
    ensures VolatileInv(cfg, c, AfterSubmit(w))
  {
    var i, workers := w.queue.queued[0], w.workers[w.queue.queued[0] := Submitted];
    HeadLeaves(w.queue.queued);
    assert w.workers[i].Idle? by { assert i in w.queue.queued; }
    SubmitQueue(w.workers, w.queue);
    SubmitStarts(w.workers, w.queue.queued, w.starts, w.needing);
    assert SettledAt(c.plan, c.endpoints[i], w.workers[i], true, w.cancel);
    assert WorkersInv(cfg, c, workers);
    assert SettledInv(c, workers, w.queue.queued[1..], w.main, w.cancel);
  }

  lemma ReapQueue(workers: seq<Worker>, q: Queue, i: nat, next: Worker)
    requires QueueInv(workers, q) && i < |workers| && workers[i].Ended? && next.Reaped?
    ensures QueueInv(workers[i := next], q.(active := q.active - {i})) && i !in q.queued
  {
    var active := q.active - {i};
    SubsetCount(active, q.active);
  }

  lemma ReapStarts(workers: seq<Worker>, queued: seq<nat>, starts: seq<nat>, needing: set<nat>, i: nat, next: Worker)
    requires StartsInv(workers, queued, starts, needing)
    requires i < |workers| && workers[i].Ended? && next.Reaped?
    ensures StartsInv(workers[i := next], queued, starts, needing)
  {
  }

  lemma ReapSettled(c: Checkpoint, workers: seq<Worker>, queued: seq<nat>, main: Main, cancel: bool, i: nat,
                    failed: bool, nextMain: Main, nextCancel: bool)
    requires SettledInv(c, workers, queued, main, cancel) && main.Looping? && i < |workers| && i !in queued
    requires if failed then Excused(nextMain, nextCancel, i) else !NeedsWork(c.endpoints[i], c.plan)
    requires (cancel ==> nextCancel) && (nextMain.Looping? || nextMain.Marking?)
    ensures SettledInv(c, workers[i := Reaped(failed)], queued, nextMain, nextCancel)
  {
    forall j: nat | j < |workers|
      ensures SettledAt(c.plan, c.endpoints[j], workers[i := Reaped(failed)][j], j in queued,
                        Excused(nextMain, nextCancel, j))
    {
      assert SettledAt(c.plan, c.endpoints[j], workers[j], j in queued, Excused(main, cancel, j));
    }
  }

  lemma ReapMoves(cfg: Config, c: Checkpoint, w: World, i: nat)
    requires VolatileInv(cfg, c, w) && w.main.Looping? && i < |w.workers| && w.workers[i].Ended?
    ensures VolatileInv(cfg, c, AfterReap(w, i))
  {
    var after, next := AfterReap(w, i), Reaped(w.workers[i].outcome.Some?);
    assert WorkerInv(cfg, c.plan, c.endpoints[i], w.workers[i]);
    assert WorkersInv(cfg, c, w.workers[i := next]);
    ReapQueue(w.workers, w.queue, i, next);
    ReapStarts(w.workers, w.queue.queued, w.starts, w.needing, i, next);
    ReapSettled(c, w.workers, w.queue.queued, w.main, w.cancel, i, next.failed, after.main, after.cancel);
  }

  lemma WithdrawMoves(cfg: Config, c: Checkpoint, w: World, i: nat)
    requires VolatileInv(cfg, c, w) && w.main.Draining? && w.cancel && i < |w.workers| && w.workers[i].Submitted?
    ensures VolatileInv(cfg, c, w.(workers := w.workers[i := Withdrawn]))
  {
    var workers := w.workers[i := Withdrawn];
    assert WorkersInv(cfg, c, workers);
    assert SettledInv(c, workers, w.queue.queued, w.main, w.cancel);
    assert QueueInv(workers, w.queue);
    assert StartsInv(workers, w.queue.queued, w.starts, w.needing);
  }

  lemma NoneLiveAfterCrash(c: Checkpoint, w: World, cfg: Config)
    requires VolatileInv(cfg, c, w)
    ensures VolatileInv(cfg, c, w.(main := Down, workers := seq(|w.workers|, _ => Idle), lock := None))
  {
  }

  /** Steps of the coordinator that change neither the store nor a worker. */
  lemma ControlMoves(cfg: Config, c: Checkpoint, w: World, step: Step)
    requires VolatileInv(cfg, c, w) && w.store == Some(c) && Enabled(cfg, w, step)
    requires LocalControl(step)
    ensures VolatileInv(cfg, c, Apply(cfg, w, step)) && Apply(cfg, w, step).store == w.store
    ensures Apply(cfg, w, step).log == w.log
  {
  }

  // ---------- Steps that write ----------

  /** A write by the holder of the lock: its endpoint moves on, the lock is released. */
  lemma WriteVolatile(cfg: Config, c: Checkpoint, d: Checkpoint, w: World, i: nat, next: Worker)
    requires VolatileInv(cfg, c, w) && i < |w.workers| && Live(w.workers[i]) && Live(next)
    requires d.plan == c.plan && d.status == Running && |d.endpoints| == |c.endpoints|
    requires d.endpoints == c.endpoints[i := d.endpoints[i]] && WorkerInv(cfg, c.plan, d.endpoints[i], next)
    requires w.lock.Some? && w.lock.value.owner == ByWorker(i)
    ensures VolatileInv(cfg, d, w.(workers := w.workers[i := next], lock := None))
  {
    var workers := w.workers[i := next];
    assert forall j :: 0 <= j < |c.endpoints| && j != i ==> d.endpoints[j] == c.endpoints[j];
    assert WorkersInv(cfg, d, workers);
    assert SettledInv(d, workers, w.queue.queued, w.main, w.cancel);
    assert QueueInv(workers, w.queue);
    assert StartsInv(workers, w.queue.queued, w.starts, w.needing);
  }

  lemma WriteFailsMoves(cfg: Config, c: Checkpoint, w: World, i: nat, fault: ScanPhase.Fault)
    requires ValidConfig(cfg) && VolatileInv(cfg, c, w) && i < |w.workers| && Wants(w.workers[i])
    requires w.lock.Some? && w.lock.value.owner == ByWorker(i) && ScanPhase.TextOk(fault)
    ensures VolatileInv(cfg, c, AfterWriteFails(w, i, fault))
  {
    var after, p := AfterWriteFails(w, i, fault), c.endpoints[i];
    assert WorkerInv(cfg, c.plan, p, w.workers[i]);
    if w.workers[i].Scans? {
      ScanPhase.CommitFailedInv(p, w.workers[i].phase, cfg.limit);
    }
    assert WorkersInv(cfg, c, after.workers);
    assert SettledInv(c, after.workers, w.queue.queued, after.main, after.cancel);
    assert QueueInv(after.workers, w.queue);
    assert StartsInv(after.workers, w.queue.queued, w.starts, w.needing);
  }

  /** The flusher's error goes on record and the cancel event is set. */
  lemma FlusherFailsMoves(cfg: Config, c: Checkpoint, w: World, i: nat)
    requires VolatileInv(cfg, c, w) && i < |w.workers| && w.workers[i].Scans? && w.workers[i].phase.failing
    ensures VolatileInv(cfg, c, AfterFlusherFails(w, i))
  {
    var worker := w.workers[i];
    var next := worker.(phase := ScanPhase.FlushErrorRecorded(worker.phase));
    assert WorkerInv(cfg, c.plan, c.endpoints[i], worker);
    assert ScanPhase.Unconfirmed(next.phase) == ScanPhase.Unconfirmed(worker.phase);
    WorkerMoves(cfg, c, w, i, next);
    CancelMoves(cfg, c, w.(workers := w.workers[i := next]));
  }

  lemma CancelMoves(cfg: Config, c: Checkpoint, w: World)
    requires VolatileInv(cfg, c, w)
    ensures VolatileInv(cfg, c, w.(cancel := true))
  {
  }

  /** One endpoint moving on within its session keeps everything confirmed. */
  lemma OneMoveKeeps(c: Checkpoint, d: Checkpoint, i: nat)
    requires SameSession(c, d) && c.status != Completed && i < |c.endpoints|
    requires d.endpoints == c.endpoints[i := d.endpoints[i]]
    requires Single.KeepsProgress(c.endpoints[i], d.endpoints[i])
    ensures Single.Keeps(Some(c), Some(d))
  {
    forall j | 0 <= j < |c.endpoints| ensures Single.KeepsProgress(c.endpoints[j], d.endpoints[j]) {
      assert j != i ==> d.endpoints[j] == c.endpoints[j];
    }
  }

  lemma WriteStep(cfg: Config, c: Checkpoint, w: World, i: nat, now: int)
    requires ValidConfig(cfg) && StoreInv(c, w.log) && VolatileInv(cfg, c, w) && c.createdAt <= now
    requires i < |w.workers| && Wants(w.workers[i]) && w.lock.Some? && w.lock.value.owner == ByWorker(i)
    ensures var after := AfterWrite(cfg, w, i, c, now);
      && StoreInv(after.store.value, after.log) && VolatileInv(cfg, after.store.value, after)
      && Single.Keeps(Some(c), after.store)
  {
    WriteMoves(cfg, c, w.log, i, w.workers[i], now);
    var d := Written(cfg, c, i, w.workers[i], now);
    assert Live(WroteWorker(w.workers[i]));
    WriteVolatile(cfg, c, d, w, i, WroteWorker(w.workers[i]));
    OneMoveKeeps(c, d, i);
  }

  lemma WriteMarkStep(cfg: Config, c: Checkpoint, w: World, now: int)
    requires StoreInv(c, w.log) && VolatileInv(cfg, c, w) && c.createdAt <= now && w.main.Marking?
    ensures var after := AfterWriteMark(w, w.main.endpoint, w.main.text, c, now);
      && StoreInv(after.store.value, after.log) && VolatileInv(cfg, after.store.value, after)
      && Single.Keeps(Some(c), after.store)
  {
    var i, text := w.main.endpoint, w.main.text;
    MarkMoves(c, w.log, i, text, now);
    var d := AfterWriteMark(w, i, text, c, now).store.value;
    assert forall j :: 0 <= j < |c.endpoints| && j != i ==> d.endpoints[j] == c.endpoints[j];
    assert WorkersInv(cfg, d, w.workers);
    assert SettledInv(d, w.workers, w.queue.queued, Looping, w.cancel);
    OneMoveKeeps(c, d, i);
  }

  lemma AllIdle(workers: seq<Worker>, queued: seq<nat>)
    requires NoRepeats(queued) && forall i: nat :: i in queued ==> i < |workers|
    requires forall i :: 0 <= i < |workers| ==> workers[i].Idle?
    ensures forall effective: int :: effective >= 0 ==> QueueInv(workers, Queue(queued, {}, effective))
    ensures StartsInv(workers, queued, [], Elems(queued))
  {
  }

  lemma NeedingFits(c: Checkpoint, plan: Plan)
    requires ValidPlan(plan) && |c.endpoints| == |plan.targets|
    ensures var needing := Needing(Cleared(c.endpoints), plan, |c.endpoints|);
      && 0 <= EffectiveWorkers(plan, |needing|) <= plan.threads
      && EffectiveWorkers(plan, |needing|) <= plan.targetWorkers
      && (needing != [] ==> 1 <= EffectiveWorkers(plan, |needing|))
  {
  }

  lemma ClearedKeeps(c: Checkpoint, now: int)
    requires c.status != Completed
    ensures Single.Keeps(Some(c), Some(Advance(c, Cleared(c.endpoints), Running, None, now)))
  {
    forall j | 0 <= j < |c.endpoints| ensures Single.KeepsProgress(c.endpoints[j], Cleared(c.endpoints)[j]) {
    }
  }

  lemma ToRunningVolatile(cfg: Config, c: Checkpoint, w: World, now: int)
    requires ValidPlan(c.plan) && |c.endpoints| == |c.plan.targets| == |w.workers| && w.lock.None?
    ensures var after := AfterToRunning(w, c, now); VolatileInv(cfg, after.store.value, after)
  {
    NeedingFits(c, c.plan);
    var after := AfterToRunning(w, c, now);
    var d := after.store.value;
    AllIdle(after.workers, after.queue.queued);
    assert SettledInv(d, after.workers, after.queue.queued, after.main, after.cancel);
    assert WorkersInv(cfg, d, after.workers);
  }

  lemma ToRunningStep(cfg: Config, c: Checkpoint, w: World, now: int)
    requires ValidConfig(cfg) && StoreInv(c, w.log) && VolatileInv(cfg, c, w)
    requires w.main == Admitted(c) && c.createdAt <= now
    ensures var after := AfterToRunning(w, c, now);
      && StoreInv(after.store.value, after.log) && VolatileInv(cfg, after.store.value, after)
      && Single.Keeps(Some(c), after.store)
  {
    TransitionMoves(c, w.log, now);
    ToRunningVolatile(cfg, c, w, now);
    ClearedKeeps(c, now);
  }

  // ---------- Closing a resume ----------

  lemma {:induction false} NothingToMark(c: Checkpoint, n: nat, now: int)
    requires n <= |c.endpoints| && forall i :: 0 <= i < n ==> !NeedsWork(c.endpoints[i], c.plan)
    ensures MarkPending(c, n, now) == c && MarkEntries(c, n) == []
  {
    if n > 0 { NothingToMark(c, n - 1, now); }
  }

  lemma {:induction false} ErrorsJoined(es: seq<Progress>)
    requires forall i :: 0 <= i < |es| ==> ValidProgress(es[i])
    ensures AnyError(es) <==> Errors(es) != ""
  {
    if es != [] {
      var front := es[..|es| - 1];
      ErrorsJoined(front);
      assert AnyError(es) <==> AnyError(front) || es[|es| - 1].error.Some? by {
        if AnyError(front) {
          var i :| 0 <= i < |front| && front[i].error.Some?;
          assert es[i].error.Some?;
        }
        if i :| 0 <= i < |es| && es[i].error.Some? {
          assert i == |es| - 1 || front[i].error.Some?;
        }
      }
    }
  }

  /** The state in which the verdict is taken: nobody is live and nothing queued, and no look at the cancel event has
      found it set; it may have been set since the last look. */
  predicate Decides(w: World) { w.main.Deciding? }

  predicate FailedWorker(workers: seq<Worker>) { exists i :: 0 <= i < |workers| && workers[i] == Reaped(true) }

  /** When the verdict is taken every endpoint is finished, except those whose worker raised, and each of those has
      its error on record. */
  lemma DecidedEndpoints(cfg: Config, c: Checkpoint, w: World, i: nat)
    requires VolatileInv(cfg, c, w) && Decides(w) && i < |c.endpoints|
    ensures w.workers[i].Idle? || w.workers[i].Reaped?
    ensures w.workers[i] == Reaped(true) <==> c.endpoints[i].error.Some?
    ensures c.endpoints[i].error.None? ==> Finished(c.endpoints[i], c.plan)
  {
    assert SettledAt(c.plan, c.endpoints[i], w.workers[i], i in w.queue.queued, Excused(w.main, w.cancel, i));
    assert i !in w.queue.queued;
    assert i in w.queue.active <==> Busy(w.workers[i]);
    assert i in w.starts <==> !w.workers[i].Idle?;
  }

  /** The branch for work that is still pending is unreachable: without an error every endpoint is finished. */
  lemma PendingBranchUnreachable(cfg: Config, c: Checkpoint, w: World)
    requires VolatileInv(cfg, c, w) && Decides(w)
    ensures AnyError(c.endpoints) || forall i :: 0 <= i < |c.endpoints| ==> !NeedsWork(c.endpoints[i], c.plan)
    ensures AnyError(c.endpoints) <==> FailedWorker(w.workers)
  {
    forall i: nat | i < |c.endpoints|
      ensures c.endpoints[i].error.None? ==> !NeedsWork(c.endpoints[i], c.plan)
      ensures c.endpoints[i].error.Some? <==> w.workers[i] == Reaped(true)
    {
      DecidedEndpoints(cfg, c, w, i);
    }
  }

  /** With every endpoint finished or in error, the verdict adds one terminal checkpoint and marks nothing. */
  lemma VerdictIsTerminal(c: Checkpoint, now: int)
    requires AnyError(c.endpoints) || forall i :: 0 <= i < |c.endpoints| ==> !NeedsWork(c.endpoints[i], c.plan)
    ensures VerdictEntries(c) == [Terminated]
    ensures Verdict(c, now) ==
            if AnyError(c.endpoints) then Advance(c, c.endpoints, Failed, Some(Truncated(Errors(c.endpoints))), now)
            else Advance(c, c.endpoints, Completed, None, now)
  {
    if !AnyError(c.endpoints) {
      NothingToMark(c, |c.endpoints|, now);
    }
  }

  lemma VerdictHolds(c: Checkpoint, log: seq<Entry>, now: int)
    requires StoreInv(c, log) && c.createdAt <= now
    requires AnyError(c.endpoints) || forall i :: 0 <= i < |c.endpoints| ==> !NeedsWork(c.endpoints[i], c.plan)
    ensures StoreInv(Verdict(c, now), log + [Terminated])
    ensures Verdict(c, now).status == if AnyError(c.endpoints) then Failed else Completed
    ensures Verdict(c, now).endpoints == c.endpoints && SameSession(c, Verdict(c, now))
  {
    VerdictIsTerminal(c, now);
    if AnyError(c.endpoints) {
      ErrorsJoined(c.endpoints);
      TerminalMoves(c, log, Failed, Some(Truncated(Errors(c.endpoints))), now);
    } else {
      TerminalMoves(c, log, Completed, None, now);
    }
  }

  lemma VerdictMoves(cfg: Config, c: Checkpoint, w: World, now: int)
    requires StoreInv(c, w.log) && VolatileInv(cfg, c, w) && Decides(w) && c.createdAt <= now
    ensures var d := Verdict(c, now);
      && VerdictEntries(c) == [Terminated] && StoreInv(d, w.log + [Terminated])
      && d.endpoints == c.endpoints && SameSession(c, d)
      && d.status == if FailedWorker(w.workers) then Failed else Completed
  {
    PendingBranchUnreachable(cfg, c, w);
    VerdictIsTerminal(c, now);
    VerdictHolds(c, w.log, now);
  }

  lemma CloseStep(cfg: Config, c: Checkpoint, d: Checkpoint, w: World, entries: seq<Entry>)
    requires VolatileInv(cfg, c, w) && NoneLive(w.workers) && w.lock.None? && c.status != Completed
    requires SameSession(c, d) && d.endpoints == c.endpoints
    ensures VolatileInv(cfg, d, AfterClose(w, d, entries)) && Single.Keeps(Some(c), Some(d))
  {
  }

  // ---------- One step ----------

  predicate LocalControl(step: Step) {
    step.Load? || step.Admit? || step.CancelRequest? || step.AcquireMark? || step.Break? || step.Drained?
    || step.LastLook? || step.Acquire?
  }

  lemma CrashStep(cfg: Config, w: World)
    requires Inv(cfg, w)
    ensures Inv(cfg, Apply(cfg, w, Crash)) && Apply(cfg, w, Crash).store == w.store
  {
    if w.store.Some? {
      NoneLiveAfterCrash(w.store.value, w, cfg);
    }
  }

  lemma SubmitStep(cfg: Config, w: World, step: Step)
    requires Inv(cfg, w) && Enabled(cfg, w, step) && step.Submit?
    ensures Inv(cfg, Apply(cfg, w, step)) && Apply(cfg, w, step).store == w.store
  {
    SubmitMoves(cfg, w.store.value, w);
  }

  lemma ReapApplies(cfg: Config, w: World, step: Step)
    requires Enabled(cfg, w, step) && step.Reap? && w.store.Some?
    ensures w.main.Looping? && step.endpoint < |w.workers| && w.workers[step.endpoint].Ended?
    ensures var after := AfterReap(w, step.endpoint);
      Apply(cfg, w, step) == after && after.store == w.store && after.log == w.log
  {
  }

  /** Steps that leave store and history alone keep the invariant when they keep its volatile half. */
  lemma VolatileOnly(cfg: Config, w: World, after: World)
    requires Inv(cfg, w) && w.store.Some? && after.store == w.store && after.log == w.log
    requires VolatileInv(cfg, w.store.value, after)
    ensures Inv(cfg, after)
  {
  }

  lemma ReapStep(cfg: Config, w: World, step: Step)
    requires Inv(cfg, w) && Enabled(cfg, w, step) && step.Reap? && w.store.Some?
    ensures Inv(cfg, Apply(cfg, w, step)) && Apply(cfg, w, step).store == w.store
  {
    ReapApplies(cfg, w, step);
    ReapMoves(cfg, w.store.value, w, step.endpoint);
    VolatileOnly(cfg, w, AfterReap(w, step.endpoint));
  }

  lemma WithdrawStep(cfg: Config, w: World, step: Step)
    requires Inv(cfg, w) && Enabled(cfg, w, step) && step.Withdraw?
    ensures Inv(cfg, Apply(cfg, w, step)) && Apply(cfg, w, step).store == w.store
  {
    WithdrawMoves(cfg, w.store.value, w, step.endpoint);
  }

  lemma WorkerStep(cfg: Config, w: World, step: Step)
    requires Inv(cfg, w) && Enabled(cfg, w, step) && (step.Local? || step.WriteFails? || step.FlusherFails?)
    ensures Inv(cfg, Apply(cfg, w, step)) && Apply(cfg, w, step).store == w.store
  {
    var c := w.store.value;
    if step.Local? {
      ActMoves(cfg, c, w, step.endpoint, step.act);
    } else if step.FlusherFails? {
      FlusherFailsMoves(cfg, c, w, step.endpoint);
    } else {
      WriteFailsMoves(cfg, c, w, step.endpoint, step.fault);
    }
  }

  lemma FinalizeApplies(cfg: Config, w: World, step: Step)
    requires Enabled(cfg, w, step) && step.Finalize? && w.store.Some?
    ensures Decides(w) && w.store.value.createdAt <= step.now
    ensures var c := w.store.value; Apply(cfg, w, step) == AfterClose(w, Verdict(c, step.now), VerdictEntries(c))
  {
  }

  lemma FinalizeStep(cfg: Config, w: World, step: Step)
    requires Inv(cfg, w) && Enabled(cfg, w, step) && step.Finalize? && w.store.Some?
    ensures Inv(cfg, Apply(cfg, w, step)) && Single.Keeps(w.store, Apply(cfg, w, step).store)
  {
    var c := w.store.value;
    FinalizeApplies(cfg, w, step);
    DecidesAtRest(cfg, c, w);
    VerdictMoves(cfg, c, w, step.now);
    CloseStep(cfg, c, Verdict(c, step.now), w, VerdictEntries(c));
  }

  lemma DecidesAtRest(cfg: Config, c: Checkpoint, w: World)
    requires VolatileInv(cfg, c, w) && Decides(w)
    ensures NoneLive(w.workers) && w.lock.None? && c.status != Completed
  {
  }

  lemma CancelStep(cfg: Config, w: World, step: Step)
    requires Inv(cfg, w) && Enabled(cfg, w, step) && (step.CancelledBefore? || step.CloseCancelled?)
    ensures Inv(cfg, Apply(cfg, w, step)) && Single.Keeps(w.store, Apply(cfg, w, step).store)
  {
    var c := w.store.value;
    var text := if step.CloseCancelled? then "cancelled_by_user" else "cancelled_before_execution";
    TerminalMoves(c, w.log, Cancelled, Some(text), step.now);
    CloseStep(cfg, c, Advance(c, c.endpoints, Cancelled, Some(text), step.now), w, [Terminated]);
  }

  lemma StoreStep(cfg: Config, w: World, step: Step)
    requires Inv(cfg, w) && Enabled(cfg, w, step) && (step.ToRunning? || step.WriteMark? || step.Write?)
    ensures Inv(cfg, Apply(cfg, w, step)) && Single.Keeps(w.store, Apply(cfg, w, step).store)
  {
    var c := w.store.value;
    if step.ToRunning? {
      ToRunningStep(cfg, c, w, step.now);
    } else if step.WriteMark? {
      WriteMarkStep(cfg, c, w, step.now);
    } else {
      WriteStep(cfg, c, w, step.endpoint, step.now);
    }
  }

  lemma CreateStep(cfg: Config, w: World, step: Step)
    requires Inv(cfg, w) && Enabled(cfg, w, step) && step.Create?
    ensures Inv(cfg, Apply(cfg, w, step)) && Single.Keeps(w.store, Apply(cfg, w, step).store)
  {
    CreatedInv(step.sessionId, step.plan, step.now);
  }

  lemma StepKeepsInv(cfg: Config, w: World, step: Step)
    requires Inv(cfg, w) && Enabled(cfg, w, step)
    ensures Inv(cfg, Apply(cfg, w, step)) && Single.Keeps(w.store, Apply(cfg, w, step).store)
  {
    if step.Create? {
      CreateStep(cfg, w, step);
    } else if step.Finalize? {
      FinalizeStep(cfg, w, step);
    } else if step.CancelledBefore? || step.CloseCancelled? {
      CancelStep(cfg, w, step);
    } else if LocalControl(step) {
      ControlMoves(cfg, w.store.value, w, step);
      Single.KeepsReflexive(w.store);
    } else if step.Crash? {
      CrashStep(cfg, w);
      Single.KeepsReflexive(w.store);
    } else if step.Submit? {
      SubmitStep(cfg, w, step);
      Single.KeepsReflexive(w.store);
    } else if step.Reap? {
      ReapStep(cfg, w, step);
      Single.KeepsReflexive(w.store);
    } else if step.Withdraw? {
      WithdrawStep(cfg, w, step);
      Single.KeepsReflexive(w.store);
    } else if step.Local? || step.WriteFails? || step.FlusherFails? {
      WorkerStep(cfg, w, step);
      Single.KeepsReflexive(w.store);
    } else {
      StoreStep(cfg, w, step);
    }
  }

  // ---------- Whole runs ----------

  predicate Legal(cfg: Config, w: World, steps: seq<Step>)
    decreases |steps|
  {
    steps == [] || (Enabled(cfg, w, steps[0]) && Legal(cfg, Apply(cfg, w, steps[0]), steps[1..]))
  }

  function Execute(cfg: Config, w: World, steps: seq<Step>): World
    requires Legal(cfg, w, steps)
    decreases |steps|
  {
    if steps == [] then w else Execute(cfg, Apply(cfg, w, steps[0]), steps[1..])
  }

  lemma {:induction false} RunKeepsInv(cfg: Config, w: World, steps: seq<Step>)
    requires Inv(cfg, w) && Legal(cfg, w, steps)
    ensures Inv(cfg, Execute(cfg, w, steps)) && Single.Keeps(w.store, Execute(cfg, w, steps).store)
    decreases |steps|
  {
    if steps == [] {
      Single.KeepsReflexive(w.store);
    } else {
      StepKeepsInv(cfg, w, steps[0]);
      var next := Apply(cfg, w, steps[0]);
      RunKeepsInv(cfg, next, steps[1..]);
      Single.KeepsTransitive(w.store, next.store, Execute(cfg, next, steps[1..]).store);
    }
  }

  lemma OneStep(cfg: Config, w: World, a: Step)
    requires Enabled(cfg, w, a)
    ensures Legal(cfg, w, [a]) && Execute(cfg, w, [a]) == Apply(cfg, w, a)
  {
    assert [a][1..] == [];
  }

  lemma {:induction false} RunsJoin(cfg: Config, w: World, a: seq<Step>, b: seq<Step>)
    requires Legal(cfg, w, a) && Legal(cfg, Execute(cfg, w, a), b)
    ensures Legal(cfg, w, a + b) && Execute(cfg, w, a + b) == Execute(cfg, Execute(cfg, w, a), b)
    decreases |a|
  {
    if a == [] {
      assert a + b == b;
    } else {
      RunsJoin(cfg, Apply(cfg, w, a[0]), a[1..], b);
      assert (a + b)[1..] == a[1..] + b;
    }
  }

  /** One more step at the end of a run. */
  lemma RunsOn(cfg: Config, w: World, steps: seq<Step>, step: Step)
    requires Legal(cfg, w, steps) && Enabled(cfg, Execute(cfg, w, steps), step)
    ensures Legal(cfg, w, steps + [step])
    ensures Execute(cfg, w, steps + [step]) == Apply(cfg, Execute(cfg, w, steps), step)
  {
    OneStep(cfg, Execute(cfg, w, steps), step);
    RunsJoin(cfg, w, steps, [step]);
  }

  /** No lost updates.  In every interleaving, with any crashes, cancellations, failures and resumes, the loaded
      progress of each endpoint is the fold of that endpoint's own committed steps, the sequence is the number of
      committed steps, and no port of an endpoint is committed twice. */
  lemma NoLostUpdates(cfg: Config, steps: seq<Step>)
    requires ValidConfig(cfg) && Legal(cfg, EMPTY_WORLD, steps)
    ensures var w := Execute(cfg, EMPTY_WORLD, steps);
      w.store.Some? ==>
        && var c := w.store.value;
           && ValidCheckpoint(c) && c.sequence == |w.log| && OncePerPort(w.log)
           && forall i :: 0 <= i < |c.endpoints| ==> c.endpoints[i] == Fold(i, Fresh(c.plan, i), Own(i, w.log))
  {
    RunKeepsInv(cfg, EMPTY_WORLD, steps);
    var w := Execute(cfg, EMPTY_WORLD, steps);
    if w.store.Some? {
      var c := w.store.value;
      forall i | 0 <= i < |c.endpoints| ensures c.endpoints[i] == Fold(i, Fresh(c.plan, i), Own(i, w.log)) {
        OthersHaveNoEffect(i, Fresh(c.plan, i), w.log);
      }
    }
  }

  /** Nothing confirmed is ever undone, from any point of a run to any later one; COMPLETED never changes again. */
  lemma ConfirmedStaysConfirmed(cfg: Config, steps: seq<Step>, more: seq<Step>)
    requires ValidConfig(cfg) && Legal(cfg, EMPTY_WORLD, steps) && Legal(cfg, Execute(cfg, EMPTY_WORLD, steps), more)
    ensures Single.Keeps(Execute(cfg, EMPTY_WORLD, steps).store,
                         Execute(cfg, Execute(cfg, EMPTY_WORLD, steps), more).store)
  {
    RunKeepsInv(cfg, EMPTY_WORLD, steps);
    RunKeepsInv(cfg, Execute(cfg, EMPTY_WORLD, steps), more);
  }

  /** A COMPLETED batch has every port of every endpoint committed exactly once. */
  lemma CompletedMeansEveryPortOnce(cfg: Config, steps: seq<Step>, i: nat, port: int)
    requires ValidConfig(cfg) && Legal(cfg, EMPTY_WORLD, steps)
    requires var store := Execute(cfg, EMPTY_WORLD, steps).store;
      store.Some? && store.value.status == Completed && i < |store.value.endpoints| && port in store.value.plan.ports
    ensures var log := Execute(cfg, EMPTY_WORLD, steps).log;
      && OncePerPort(log)
      && exists k :: 0 <= k < |log| && log[k].Confirmed? && log[k].endpoint == i && log[k].result.port == port
  {
    RunKeepsInv(cfg, EMPTY_WORLD, steps);
    var w := Execute(cfg, EMPTY_WORLD, steps);
    var c := w.store.value;
    assert Finished(c.endpoints[i], c.plan) && AccountsFor(c.endpoints[i], c.plan);
    CompletedIsLogged(c.plan, i, w.log, port);
  }

  lemma EveryoneStarted(cfg: Config, c: Checkpoint, w: World)
    requires VolatileInv(cfg, c, w) && Decides(w)
    ensures NoRepeats(w.starts) && Elems(w.starts) == w.needing
  {
    assert w.queue.queued == [];
    assert forall i: nat :: i in w.needing <==> i in Elems(w.starts);
  }

  /** The two ways out of a resume: CANCELLED, and the verdict, which is COMPLETED exactly when no worker raised and
      FAILED exactly when one did.  Nothing is marked on the way, no endpoint changes, and at the verdict every endpoint
      that needed work has been started, exactly once. */
  lemma VerdictExactly(cfg: Config, steps: seq<Step>, last: Step)
    requires ValidConfig(cfg) && Legal(cfg, EMPTY_WORLD, steps)
    requires last.Finalize? || last.CloseCancelled?
    requires Enabled(cfg, Execute(cfg, EMPTY_WORLD, steps), last)
    ensures var w := Execute(cfg, EMPTY_WORLD, steps); var after := Apply(cfg, w, last);
      && after.store.value.status == (if w.main.Closing? then Cancelled
                                      else if FailedWorker(w.workers) then Failed else Completed)
      && after.store.value.endpoints == w.store.value.endpoints
      && after.log == w.log + [Terminated]
      && (last.Finalize? ==> NoRepeats(w.starts) && Elems(w.starts) == w.needing)
  {
    RunKeepsInv(cfg, EMPTY_WORLD, steps);
    var w := Execute(cfg, EMPTY_WORLD, steps);
    if last.Finalize? {
      VerdictMoves(cfg, w.store.value, w, last.now);
      EveryoneStarted(cfg, w.store.value, w);
    }
  }

  // ---------- When a resume ends CANCELLED ----------

  /** A look at the cancel event is still ahead: the first one, or the last one after the pool is gone. */
  predicate LookAhead(main: Main) {
    main.Loaded? || main.Looping? || main.Marking? || main.Draining? || main.Closing?
  }

  /** A resume that will find the cancel event set, or one that has ended CANCELLED. */
  predicate Cancelling(w: World) {
    || (w.cancel && LookAhead(w.main))
    || (w.main.Down? && w.store.Some? && w.store.value.status == Cancelled)
  }

  /** Neither a crash nor the start of another resume. */
  predicate Continues(step: Step) { !step.Crash? && !step.Load? }

  lemma CancelledGoesOn(cfg: Config, w: World, step: Step)
    requires Enabled(cfg, w, step) && w.cancel && LookAhead(w.main) && Continues(step)
    ensures Cancelling(Apply(cfg, w, step))
  {
  }

  lemma EndedStays(cfg: Config, w: World, step: Step)
    requires Inv(cfg, w) && Enabled(cfg, w, step) && w.main.Down? && w.store.Some? && Continues(step)
    ensures var after := Apply(cfg, w, step);
      after.store == w.store && after.main.Down? && after.workers == w.workers
  {
    assert NoneLive(w.workers) && w.lock.None?;
  }

  lemma CancelSticks(cfg: Config, w: World, step: Step)
    requires Inv(cfg, w) && Enabled(cfg, w, step) && Cancelling(w) && Continues(step)
    ensures Cancelling(Apply(cfg, w, step))
  {
    if w.main.Down? {
      EndedStays(cfg, w, step);
    } else {
      CancelledGoesOn(cfg, w, step);
    }
  }

  /** Once the cancel event is set with a look at it ahead, a resume can only end CANCELLED, whatever its workers still
      do. */
  lemma {:induction false} CancelledResumeEndsCancelled(cfg: Config, w: World, steps: seq<Step>)
    requires Inv(cfg, w) && Legal(cfg, w, steps) && Cancelling(w)
    requires forall k :: 0 <= k < |steps| ==> Continues(steps[k])
    ensures Cancelling(Execute(cfg, w, steps))
    ensures var after := Execute(cfg, w, steps); after.main.Down? ==> after.store.value.status == Cancelled
    decreases |steps|
  {
    if steps != [] {
      assert Continues(steps[0]);
      StepKeepsInv(cfg, w, steps[0]);
      CancelSticks(cfg, w, steps[0]);
      CancelledResumeEndsCancelled(cfg, Apply(cfg, w, steps[0]), steps[1..]);
    }
  }

  /** At some point of the run the cancel event is set with a look at it ahead. */
  predicate CancelledInTime(cfg: Config, w: World, steps: seq<Step>)
    requires Legal(cfg, w, steps)
    decreases |steps|
  {
    || (w.cancel && LookAhead(w.main))
    || (steps != [] && CancelledInTime(cfg, Apply(cfg, w, steps[0]), steps[1..]))
  }

  lemma {:induction false} NothingAfterTheEnd(cfg: Config, w: World, steps: seq<Step>)
    requires Inv(cfg, w) && Legal(cfg, w, steps) && w.main.Down? && w.store.Some?
    requires forall k :: 0 <= k < |steps| ==> Continues(steps[k])
    ensures var after := Execute(cfg, w, steps); after.store == w.store && after.workers == w.workers
    ensures !CancelledInTime(cfg, w, steps)
    decreases |steps|
  {
    if steps != [] {
      assert Continues(steps[0]);
      StepKeepsInv(cfg, w, steps[0]);
      EndedStays(cfg, w, steps[0]);
      NothingAfterTheEnd(cfg, Apply(cfg, w, steps[0]), steps[1..]);
    }
  }

  /** What the end of a resume that was, or was not, cancelled in time looks like. */
  predicate EndsAs(after: World, cancelled: bool) {
    after.store.Some? && after.store.value.status ==
      if cancelled then Cancelled else if FailedWorker(after.workers) then Failed else Completed
  }

  /** The one step that ends a resume in which no look finds the cancel event set is the verdict. */
  lemma LastStep(cfg: Config, w: World, step: Step)
    requires Inv(cfg, w) && Enabled(cfg, w, step) && Continues(step) && w.store.Some?
    requires !w.main.Down? && !(w.cancel && LookAhead(w.main)) && Apply(cfg, w, step).main.Down?
    ensures step.Finalize? && EndsAs(Apply(cfg, w, step), false)
  {
    assert step.Finalize?;
    VerdictMoves(cfg, w.store.value, w, step.now);
  }

  lemma SessionGoesOn(cfg: Config, w: World, step: Step)
    requires Inv(cfg, w) && Enabled(cfg, w, step) && w.store.Some?
    ensures Inv(cfg, Apply(cfg, w, step)) && Apply(cfg, w, step).store.Some?
  {
    StepKeepsInv(cfg, w, step);
  }

  lemma EndsWithThis(cfg: Config, w: World, steps: seq<Step>)
    requires Inv(cfg, w) && Legal(cfg, w, steps) && w.store.Some? && !w.main.Down?
    requires forall k :: 0 <= k < |steps| ==> Continues(steps[k])
    requires steps != [] && Apply(cfg, w, steps[0]).main.Down? && !(w.cancel && LookAhead(w.main))
    ensures EndsAs(Execute(cfg, w, steps), false) && !CancelledInTime(cfg, w, steps)
  {
    assert Continues(steps[0]);
    SessionGoesOn(cfg, w, steps[0]);
    LastStep(cfg, w, steps[0]);
    NothingAfterTheEnd(cfg, Apply(cfg, w, steps[0]), steps[1..]);
  }

  /** How a resume ends.  It ends CANCELLED if and only if the cancel event is set before the first look at it, or
      during the work before the last look; otherwise FAILED if and only if a worker raised, and else COMPLETED. */
  lemma {:induction false} ResumeEndsExactly(cfg: Config, w: World, steps: seq<Step>)
    requires Inv(cfg, w) && Legal(cfg, w, steps) && w.store.Some? && !w.main.Down?
    requires forall k :: 0 <= k < |steps| ==> Continues(steps[k])
    requires Execute(cfg, w, steps).main.Down?
    ensures EndsAs(Execute(cfg, w, steps), CancelledInTime(cfg, w, steps))
    decreases |steps|
  {
    if w.cancel && LookAhead(w.main) {
      CancelledResumeEndsCancelled(cfg, w, steps);
    } else {
      assert steps != [];
      if Apply(cfg, w, steps[0]).main.Down? {
        EndsWithThis(cfg, w, steps);
      } else {
        SessionGoesOn(cfg, w, steps[0]);
        ResumeEndsExactly(cfg, Apply(cfg, w, steps[0]), steps[1..]);
      }
    }
  }

  /** The steps of a cancel that comes between the last look and the verdict. */
  function LateCancel(now: int): seq<Step> { [LastLook, CancelRequest, Finalize(now)] }

  lemma TwoSteps(cfg: Config, w: World, a: Step, b: Step)
    requires Enabled(cfg, w, a) && Enabled(cfg, Apply(cfg, w, a), b)
    ensures Legal(cfg, w, [a, b]) && Execute(cfg, w, [a, b]) == Apply(cfg, Apply(cfg, w, a), b)
  {
    assert [a, b][1..] == [b];
    OneStep(cfg, Apply(cfg, w, a), b);
  }

  lemma ThreeSteps(cfg: Config, w: World, a: Step, b: Step, c: Step)
    requires Enabled(cfg, w, a) && Enabled(cfg, Apply(cfg, w, a), b)
    requires Enabled(cfg, Apply(cfg, Apply(cfg, w, a), b), c)
    ensures Legal(cfg, w, [a, b, c])
    ensures Execute(cfg, w, [a, b, c]) == Apply(cfg, Apply(cfg, Apply(cfg, w, a), b), c)
  {
    assert [a, b, c][1..] == [b, c];
    TwoSteps(cfg, Apply(cfg, w, a), b, c);
  }

  /** What the two steps after which the verdict is taken leave as it was. */
  lemma LateCancelDecides(cfg: Config, w: World, now: int)
    requires Inv(cfg, w) && w.store.Some? && w.main.Closing? && !w.cancel && w.store.value.createdAt <= now
    ensures Enabled(cfg, w, LastLook) && Enabled(cfg, Apply(cfg, w, LastLook), CancelRequest)
    ensures var d := Apply(cfg, Apply(cfg, w, LastLook), CancelRequest);
      && Inv(cfg, d) && d == w.(main := Deciding, cancel := true) && Enabled(cfg, d, Finalize(now))
      && Apply(cfg, d, Finalize(now)).cancel && Apply(cfg, d, Finalize(now)).workers == w.workers
  {
    assert |w.workers| == |w.store.value.endpoints|;
    StepKeepsInv(cfg, w, LastLook);
    StepKeepsInv(cfg, Apply(cfg, w, LastLook), CancelRequest);
  }

  /** A cancel that comes after the last look is ignored: wherever that look finds the event unset, the resume may still
      end by its workers with the event set. */
  lemma LateCancelIsIgnored(cfg: Config, w: World, now: int)
    requires Inv(cfg, w) && w.store.Some? && w.main.Closing? && !w.cancel && w.store.value.createdAt <= now
    ensures Legal(cfg, w, LateCancel(now))
    ensures var after := Execute(cfg, w, LateCancel(now));
      after.main.Down? && after.cancel && EndsAs(after, false) && after.workers == w.workers
  {
    LateCancelDecides(cfg, w, now);
    ThreeSteps(cfg, w, LastLook, CancelRequest, Finalize(now));
    LastStep(cfg, w.(main := Deciding, cancel := true), Finalize(now));
  }

  // ---------- A failing flusher ----------

  /** A periodic flusher has failed and has not set the cancel event yet. */
  predicate FlusherIsFailing(worker: Worker) { worker.Scans? && worker.phase.failing }

  predicate AnyFailing(workers: seq<Worker>) { exists i :: 0 <= i < |workers| && FlusherIsFailing(workers[i]) }

  /** A resume that will end CANCELLED: it is cancelling, or a failed flusher is about to cancel it. */
  predicate Doomed(w: World) { Cancelling(w) || (InResume(w.main) && AnyFailing(w.workers)) }

  lemma FailingThroughAct(cfg: Config, plan: Plan, p: Progress, worker: Worker, act: Act)
    requires FlusherIsFailing(worker) && WorkerInv(cfg, plan, p, worker) && CanAct(cfg, p, worker, act)
    ensures FlusherIsFailing(Acted(cfg, plan, p, worker, act))
  {
  }

  predicate OfWorker(step: Step) {
    step.Local? || step.Acquire? || step.Write? || step.WriteFails? || step.FlusherFails?
  }

  /** Nobody but the worker itself moves a worker that is scanning. */
  lemma OthersLeaveIt(cfg: Config, w: World, step: Step, i: nat)
    requires Enabled(cfg, w, step) && !step.Crash? && InResume(w.main) && w.store.Some? && i < |w.workers|
    requires w.workers[i].Scans? && i !in w.queue.queued && !(OfWorker(step) && step.endpoint == i)
    ensures i < |Apply(cfg, w, step).workers| && Apply(cfg, w, step).workers[i] == w.workers[i]
  {
  }

  /** Whatever its worker and the others do next, a failing flusher stays until it has set the cancel event. */
  lemma FailingStays(cfg: Config, w: World, step: Step, i: nat)
    requires Enabled(cfg, w, step) && !step.Crash? && InResume(w.main) && w.store.Some? && i < |w.workers|
    requires WorkerInv(cfg, w.store.value.plan, w.store.value.endpoints[i], w.workers[i])
    requires FlusherIsFailing(w.workers[i]) && i !in w.queue.queued
    ensures var after := Apply(cfg, w, step);
      i < |after.workers| && (FlusherIsFailing(after.workers[i]) || (after.cancel && step == FlusherFails(i)))
  {
    if !OfWorker(step) || step.endpoint != i {
      OthersLeaveIt(cfg, w, step, i);
    } else if step.Local? {
      FailingThroughAct(cfg, w.store.value.plan, w.store.value.endpoints[i], w.workers[i], step.act);
    }
  }

  lemma OpenGoesOn(cfg: Config, w: World, step: Step)
    requires Enabled(cfg, w, step) && Continues(step) && w.store.Some?
    requires w.main.Looping? || w.main.Marking? || w.main.Draining?
    ensures var main := Apply(cfg, w, step).main; InResume(main) && (step.FlusherFails? ==> LookAhead(main))
  {
  }

  lemma FailingWorker(cfg: Config, w: World, i: nat)
    requires Inv(cfg, w) && InResume(w.main) && i < |w.workers| && FlusherIsFailing(w.workers[i])
    ensures i !in w.queue.queued && w.store.Some? && |w.workers| == |w.store.value.endpoints|
    ensures WorkerInv(cfg, w.store.value.plan, w.store.value.endpoints[i], w.workers[i])
    ensures w.main.Looping? || w.main.Marking? || w.main.Draining?
  {
    assert Live(w.workers[i]);
  }

  lemma FailingGoesOn(cfg: Config, w: World, step: Step, i: nat)
    requires Inv(cfg, w) && Enabled(cfg, w, step) && Continues(step) && InResume(w.main)
    requires i < |w.workers| && FlusherIsFailing(w.workers[i])
    ensures var after := Apply(cfg, w, step);
      && InResume(after.main) && i < |after.workers| && (FlusherIsFailing(after.workers[i]) || Cancelling(after))
  {
    FailingWorker(cfg, w, i);
    OpenGoesOn(cfg, w, step);
    FailingStays(cfg, w, step, i);
  }

  lemma DoomSticks(cfg: Config, w: World, step: Step)
    requires Inv(cfg, w) && Enabled(cfg, w, step) && Doomed(w) && Continues(step)
    ensures Doomed(Apply(cfg, w, step))
  {
    if Cancelling(w) {
      CancelSticks(cfg, w, step);
    } else {
      var i :| 0 <= i < |w.workers| && FlusherIsFailing(w.workers[i]);
      FailingGoesOn(cfg, w, step, i);
    }
  }

  lemma {:induction false} DoomedEndsCancelled(cfg: Config, w: World, steps: seq<Step>)
    requires Inv(cfg, w) && Legal(cfg, w, steps) && Doomed(w)
    requires forall k :: 0 <= k < |steps| ==> Continues(steps[k])
    ensures var after := Execute(cfg, w, steps);
      Doomed(after) && (after.main.Down? ==> after.store.Some? && after.store.value.status == Cancelled)
    decreases |steps|
  {
    if steps != [] {
      assert Continues(steps[0]);
      StepKeepsInv(cfg, w, steps[0]);
      DoomSticks(cfg, w, steps[0]);
      DoomedEndsCancelled(cfg, Apply(cfg, w, steps[0]), steps[1..]);
    }
  }

  lemma FlusherFailureDooms(cfg: Config, w: World, i: nat, fault: ScanPhase.Fault)
    requires Inv(cfg, w) && i < |w.workers| && Enabled(cfg, w, WriteFails(i, fault))
    requires w.workers[i].Scans? && w.workers[i].phase.holder == ScanPhase.Flusher
    ensures Inv(cfg, AfterWriteFails(w, i, fault)) && Doomed(AfterWriteFails(w, i, fault))
  {
    assert Live(w.workers[i]);
    StepKeepsInv(cfg, w, WriteFails(i, fault));
    assert FlusherIsFailing(AfterWriteFails(w, i, fault).workers[i]);
  }

  /** A failed commit of a periodic flusher cancels the whole batch: it can end neither FAILED nor COMPLETED.  The
      worker joins its flusher before it ends, so the event is set before the coordinator's last look. */
  lemma FlusherFailureCancels(cfg: Config, w: World, i: nat, fault: ScanPhase.Fault, steps: seq<Step>)
    requires Inv(cfg, w) && i < |w.workers| && Enabled(cfg, w, WriteFails(i, fault))
    requires w.workers[i].Scans? && w.workers[i].phase.holder == ScanPhase.Flusher
    requires Legal(cfg, AfterWriteFails(w, i, fault), steps)
    requires forall k :: 0 <= k < |steps| ==> Continues(steps[k])
    ensures var after := Execute(cfg, AfterWriteFails(w, i, fault), steps);
      after.main.Down? ==> after.store.Some? && after.store.value.status == Cancelled
  {
    FlusherFailureDooms(cfg, w, i, fault);
    DoomedEndsCancelled(cfg, AfterWriteFails(w, i, fault), steps);
  }

  lemma CompletedStays(cfg: Config, w: World, step: Step)
    requires Inv(cfg, w) && Enabled(cfg, w, step) && w.store.Some? && w.store.value.status == Completed
    ensures var after := Apply(cfg, w, step);
      after.store == w.store && after.log == w.log && after.main.Down? && NoneLive(after.workers)
  {
    assert w.main.Down? && NoneLive(w.workers) && w.lock.None?;
  }

  /** A COMPLETED session stays exactly as it is through any number of resumes: nothing is written, no worker is ever
      started and no resume gets past loading. */
  lemma {:induction false} ResumeOfCompletedChangesNothing(cfg: Config, w: World, steps: seq<Step>)
    requires Inv(cfg, w) && Legal(cfg, w, steps) && w.store.Some? && w.store.value.status == Completed
    ensures var after := Execute(cfg, w, steps);
      after.store == w.store && after.log == w.log && after.main.Down? && NoneLive(after.workers)
    decreases |steps|
  {
    if steps == [] {
      assert w.main.Down?;
    } else {
      StepKeepsInv(cfg, w, steps[0]);
      CompletedStays(cfg, w, steps[0]);
      ResumeOfCompletedChangesNothing(cfg, Apply(cfg, w, steps[0]), steps[1..]);
    }
  }

  // ---------- The scheduler's bounds ----------

  /** The scan workers the resume grants to each endpoint. */
  function WorkersPerEndpoint(plan: Plan, effective: int): int
    requires effective > 0
  {
    var share := plan.threads / effective;
    if share < 1 then 1 else share
  }

  /** The scan workers an endpoint holds: what its scan was granted when it started, or what it may be granted. */
  function ScanWorkers(plan: Plan, effective: int, worker: Worker): int
    requires effective > 0
  {
    match worker
    case Scans(phase, _) => Min(WorkersPerEndpoint(plan, effective), |phase.request|)
    case Submitted => WorkersPerEndpoint(plan, effective)
    case Started => WorkersPerEndpoint(plan, effective)
    case _ => 0
  }

  /** The scan workers of the first `n` endpoints, added up. */
  function Granted(plan: Plan, effective: int, workers: seq<Worker>, n: nat): int
    requires effective > 0 && n <= |workers|
  {
    if n == 0 then 0 else Granted(plan, effective, workers, n - 1) + ScanWorkers(plan, effective, workers[n - 1])
  }

  /** A grant is made once: whatever is committed while the scan goes on, its request stays what it was. */
  lemma GrantStays(cfg: Config, w: World, step: Step, i: nat)
    requires Enabled(cfg, w, step) && i < |w.workers| && i < |Apply(cfg, w, step).workers|
    requires w.workers[i].Scans? && Apply(cfg, w, step).workers[i].Scans?
    ensures Apply(cfg, w, step).workers[i].phase.request == w.workers[i].phase.request
  {
  }

  lemma ShareFits(threads: int, effective: int)
    requires 1 <= effective <= threads
    ensures 1 <= threads / effective && effective * (threads / effective) <= threads
  {
  }

  lemma MultiplyMonotone(share: int, a: int, b: int)
    requires 0 <= share && a <= b
    ensures share * a <= share * b
  {
  }

  lemma SharesFit(plan: Plan, effective: int, count: int)
    requires 1 <= effective <= plan.threads && count <= effective
    ensures WorkersPerEndpoint(plan, effective) * count <= plan.threads
  {
    ShareFits(plan.threads, effective);
    MultiplyMonotone(WorkersPerEndpoint(plan, effective), count, effective);
  }

  lemma {:induction false} GrantedBound(plan: Plan, effective: int, workers: seq<Worker>, n: nat)
    requires effective > 0 && n <= |workers|
    ensures var live := set i | 0 <= i < n && Live(workers[i]);
      Granted(plan, effective, workers, n) <= WorkersPerEndpoint(plan, effective) * |live|
  {
    var share := WorkersPerEndpoint(plan, effective);
    if n > 0 {
      GrantedBound(plan, effective, workers, n - 1);
      var live, fewer := set i | 0 <= i < n && Live(workers[i]), set i | 0 <= i < n - 1 && Live(workers[i]);
      if Live(workers[n - 1]) {
        assert live == fewer + {n - 1};
        assert share * |live| == share * |fewer| + share;
      } else {
        assert live == fewer;
      }
    }
  }

  lemma GrantsFit(plan: Plan, q: Queue, workers: seq<Worker>)
    requires |q.active| <= q.effective <= plan.threads && q.active != {}
    requires forall i :: 0 <= i < |workers| && Live(workers[i]) ==> i in q.active
    ensures q.effective > 0 && WorkersPerEndpoint(plan, q.effective) * |q.active| <= plan.threads
    ensures Granted(plan, q.effective, workers, |workers|) <= WorkersPerEndpoint(plan, q.effective) * |q.active|
  {
    assert q.effective >= 1;
    var live: set<nat> := set i | 0 <= i < |workers| && Live(workers[i]);
    GrantedBound(plan, q.effective, workers, |workers|);
    SubsetCount(live, q.active);
    MultiplyMonotone(WorkersPerEndpoint(plan, q.effective), |live|, |q.active|);
    SharesFit(plan, q.effective, |q.active|);
  }

  /** At most the effective number of endpoints is active, no endpoint is started twice or without needing work, and
      neither the share of every active endpoint nor the workers granted to the running scans, added up, exceed the
      plan's threads. */
  predicate WithinBounds(c: Checkpoint, w: World) {
    && NoRepeats(w.starts) && Elems(w.starts) <= w.needing
    && (forall i :: 0 <= i < |w.workers| && Live(w.workers[i]) ==> i in w.queue.active)
    && |w.queue.active| <= w.queue.effective <= c.plan.targetWorkers
    && (w.queue.active != {} ==>
          && w.queue.effective > 0
          && WorkersPerEndpoint(c.plan, w.queue.effective) * |w.queue.active| <= c.plan.threads
          && Granted(c.plan, w.queue.effective, w.workers, |w.workers|) <= c.plan.threads)
  }

  /** The scheduler stays within its bounds in every reachable state of a resume. */
  lemma SchedulerBounds(cfg: Config, steps: seq<Step>)
    requires ValidConfig(cfg) && Legal(cfg, EMPTY_WORLD, steps)
    ensures var w := Execute(cfg, EMPTY_WORLD, steps);
      w.store.Some? && InResume(w.main) ==> WithinBounds(w.store.value, w)
  {
    RunKeepsInv(cfg, EMPTY_WORLD, steps);
    var w := Execute(cfg, EMPTY_WORLD, steps);
    if w.store.Some? && InResume(w.main) {
      BoundsHold(cfg, w.store.value, w);
    }
  }

  lemma BoundsHold(cfg: Config, c: Checkpoint, w: World)
    requires VolatileInv(cfg, c, w) && InResume(w.main)
    ensures WithinBounds(c, w)
  {
    if w.queue.active != {} {
      GrantsFit(c.plan, w.queue, w.workers);
    }
  }
}
