/** Every resume of the batch runner ends: before its end some step is always possible without any failure, and it has a
    bounded number of steps, whatever the workers, flushers and cancellations do. */
module BatchLiveness {
  import opened Common
  import opened Session
  import opened ScanPhase
  import opened BatchRunner
  import opened BatchHistory
  import opened BatchSafety

  // ---------- Some step is possible ----------

  /** An act of a worker that no failure brings about. */
  predicate GoodAct(act: Act) { !act.StartRaises? && !act.BannerRaises? }

  /** A step that carries a resume on by itself: no failure of the surroundings, no crash, no cancellation. */
  predicate Carries(step: Step) {
    && !step.Create? && !step.Load? && !step.CancelRequest? && !step.Crash? && !step.WriteFails?
    && (step.Local? ==> GoodAct(step.act))
  }

  ghost predicate CanGoOn(cfg: Config, w: World) { exists step :: Enabled(cfg, w, step) && Carries(step) }

  /** Whoever holds the state lock can write and release it. */
  lemma HolderGoesOn(cfg: Config, w: World)
    requires BatchSafety.Inv(cfg, w) && w.store.Some? && w.lock.Some?
    ensures CanGoOn(cfg, w)
  {
    var c := w.store.value;
    var step := match w.lock.value.owner
      case ByWorker(i) => Write(i, c.updatedAt)
      case ByMain => WriteMark(c.updatedAt);
    assert w.main.Marking? ==> w.main.endpoint < |c.endpoints|;
    assert Enabled(cfg, w, step) && Carries(step);
  }

  /** The next act of a live worker that is at no store call; `port` is the next banner it grabs, if it has one left. */
  function NextAct(p: Progress, worker: Worker, port: int): Act
    requires Live(worker) && !Wants(worker)
  {
    match worker
    case Submitted => Start
    case Started => BeginScan
    case Scans(phase, raised) =>
      if phase.stage == Scanning then ScanReturns(None)
      else if phase.stage == Joining then Join
      else if FinalCanTake(phase) then FinalTake
      else if phase.stage == Raised || phase.flushFailed then ScanFails(ErrorFault("flush"))
      else if raised.Some? then ScanFails(raised.value)
      else if p.pending != {} then ScanFails(ErrorFault("missing"))
      else ScanDone
    case Banners(todo, _) =>
      if port in todo then GrabBanner(Grab(port, None)) else BannersDone
  }

  /** The port is one of the banners left, unless there is none. */
  predicate IsNext(worker: Worker, port: int) { worker.Banners? ==> worker.todo == {} || port in worker.todo }

  lemma SomePortIsNext(worker: Worker)
    ensures exists port :: IsNext(worker, port)
  {
    if worker.Banners? && exists port :: port in worker.todo {
      var port :| port in worker.todo;
      assert IsNext(worker, port);
    } else {
      assert worker.Banners? ==> worker.todo == {};
      assert IsNext(worker, 0);
    }
  }

  lemma WorkerActs(cfg: Config, plan: Plan, p: Progress, worker: Worker, port: int)
    requires WorkerInv(cfg, plan, p, worker) && Live(worker) && !Wants(worker)
    requires !FlusherIsFailing(worker) && IsNext(worker, port)
    ensures CanAct(cfg, p, worker, NextAct(p, worker, port)) && GoodAct(NextAct(p, worker, port))
  {
  }

  /** The next step of a live worker while the state lock is free. */
  function NextStep(p: Progress, worker: Worker, i: nat, port: int): Step
    requires Live(worker)
  {
    if Wants(worker) then Acquire(i)
    else if FlusherIsFailing(worker) then Step.FlusherFails(i)
    else Local(i, NextAct(p, worker, port))
  }

  lemma WorkerSteps(cfg: Config, w: World, i: nat, port: int)
    requires BatchSafety.Inv(cfg, w) && w.store.Some? && InResume(w.main) && w.lock.None?
    requires i < |w.workers| && Live(w.workers[i]) && IsNext(w.workers[i], port)
    ensures i < |w.store.value.endpoints|
    ensures var step := NextStep(w.store.value.endpoints[i], w.workers[i], i, port);
      Enabled(cfg, w, step) && Carries(step) && OfWorker(step)
  {
    var c, worker := w.store.value, w.workers[i];
    assert WorkerInv(cfg, c.plan, c.endpoints[i], worker);
    if !Wants(worker) && !FlusherIsFailing(worker) {
      WorkerActs(cfg, c.plan, c.endpoints[i], worker, port);
    }
  }

  lemma WorkerGoesOn(cfg: Config, w: World, i: nat)
    requires BatchSafety.Inv(cfg, w) && w.store.Some? && InResume(w.main) && w.lock.None?
    requires i < |w.workers| && Live(w.workers[i])
    ensures CanGoOn(cfg, w)
  {
    SomePortIsNext(w.workers[i]);
    var port :| IsNext(w.workers[i], port);
    WorkerSteps(cfg, w, i, port);
    assert Enabled(cfg, w, NextStep(w.store.value.endpoints[i], w.workers[i], i, port));
  }

  /** In the queue loop an active endpoint is live or done. */
  lemma ActiveEndpoint(cfg: Config, c: Checkpoint, w: World, i: nat)
    requires VolatileInv(cfg, c, w) && w.main.Looping? && i in w.queue.active
    ensures i < |w.workers| && (Live(w.workers[i]) || w.workers[i].Ended?)
  {
    assert Busy(w.workers[i]);
  }

  lemma LoopGoesOn(cfg: Config, w: World)
    requires BatchSafety.Inv(cfg, w) && w.store.Some? && w.main.Looping? && w.lock.None?
    ensures CanGoOn(cfg, w)
  {
    if w.cancel || (w.queue.queued == [] && w.queue.active == {}) {
      assert Enabled(cfg, w, Break);
    } else if i :| i in w.queue.active {
      ActiveEndpoint(cfg, w.store.value, w, i);
      if Live(w.workers[i]) {
        WorkerGoesOn(cfg, w, i);
      } else {
        assert Enabled(cfg, w, Reap(i));
      }
    } else {
      assert w.queue.queued[0] in w.queue.queued;
      assert Enabled(cfg, w, Submit);
    }
  }

  lemma DrainGoesOn(cfg: Config, w: World)
    requires BatchSafety.Inv(cfg, w) && w.store.Some? && w.main.Draining? && w.lock.None?
    ensures CanGoOn(cfg, w)
  {
    if i :| 0 <= i < |w.workers| && Live(w.workers[i]) {
      WorkerGoesOn(cfg, w, i);
    } else {
      assert Enabled(cfg, w, Drained);
    }
  }

  lemma EndGoesOn(cfg: Config, w: World)
    requires BatchSafety.Inv(cfg, w) && w.store.Some?
    requires w.main.Loaded? || w.main.Admitted? || w.main.Marking? || w.main.Closing? || w.main.Deciding?
    requires w.lock.None?
    ensures CanGoOn(cfg, w)
  {
    var now := w.store.value.updatedAt;
    var step := match w.main
      case Loaded(_) => if w.cancel then CancelledBefore(now) else Admit
      case Admitted(_) => ToRunning(now)
      case Marking(_, _) => AcquireMark
      case Closing => if w.cancel then CloseCancelled(now) else LastLook
      case _ => Finalize(now);
    assert Enabled(cfg, w, step) && Carries(step);
  }

  /** No deadlock.  In every reachable state of a resume, with the state lock and the callback locks nested as they are,
      some step carries the resume on, and none of these is a failure, a crash or a cancellation. */
  lemma NeverStuck(cfg: Config, steps: seq<Step>)
    requires ValidConfig(cfg) && Legal(cfg, EMPTY_WORLD, steps)
    ensures var w := Execute(cfg, EMPTY_WORLD, steps); w.main.Down? || CanGoOn(cfg, w)
  {
    RunKeepsInv(cfg, EMPTY_WORLD, steps);
    var w := Execute(cfg, EMPTY_WORLD, steps);
    if !w.main.Down? {
      NotStuck(cfg, w);
    }
  }

  lemma NotStuck(cfg: Config, w: World)
    requires BatchSafety.Inv(cfg, w) && w.store.Some? && !w.main.Down?
    ensures CanGoOn(cfg, w)
  {
    if w.lock.Some? {
      HolderGoesOn(cfg, w);
    } else if w.main.Looping? {
      LoopGoesOn(cfg, w);
    } else if w.main.Draining? {
      DrainGoesOn(cfg, w);
    } else {
      EndGoesOn(cfg, w);
    }
  }

  // ---------- A resume has a bounded number of steps ----------

  function StageRank(stage: Stage): nat {
    match stage case Scanning => 2 case Joining => 1 case _ => 0
  }

  /** What a worker may still do, for a plan of `n` ports. */
  function Rank(n: nat, worker: Worker): nat {
    match worker
    case Submitted => 8 * n + 10
    case Started => 8 * n + 9
    case Scans(phase, _) =>
      5 * |phase.pending| + 4 * |phase.buffered| + 3 * |phase.inflight| + StageRank(phase.stage)
      + (if phase.failing then 1 else 0) + 3 * n + 6
    case Banners(todo, grabbed) => 3 * |todo| + (if grabbed.None? then 1 else 0) + 4
    case Ended(_) => 4
    case _ => 0
  }

  function Ranks(n: nat, workers: seq<Worker>): nat {
    if workers == [] then 0 else Ranks(n, workers[..|workers| - 1]) + Rank(n, workers[|workers| - 1])
  }

  function MainRank(main: Main): nat {
    match main
    case Deciding => 1
    case Closing => 2
    case Draining => 3
    case Looping => 4
    case Marking(_, _) => 7
    case _ => 0
  }

  function ShareOf(n: nat): nat { 8 * n + 11 }

  /** How many steps a resume may still have. */
  function Left(plan: Plan, w: World): nat {
    var n := |plan.ports|;
    if w.main.Down? then 0
    else if w.main.Loaded? then ShareOf(n) * |w.workers| + 7
    else if w.main.Admitted? then ShareOf(n) * |w.workers| + 6
    else ShareOf(n) * |w.queue.queued| + Ranks(n, w.workers) + MainRank(w.main) + LockRank(w.lock)
  }

  lemma {:induction false} RanksUpdated(n: nat, workers: seq<Worker>, i: nat, next: Worker)
    requires i < |workers|
    ensures Ranks(n, workers[i := next]) == Ranks(n, workers) - Rank(n, workers[i]) + Rank(n, next)
  {
    var front := workers[..|workers| - 1];
    if i < |workers| - 1 {
      RanksUpdated(n, front, i, next);
      assert workers[i := next][..|workers| - 1] == front[i := next];
    } else {
      assert workers[i := next][..|workers| - 1] == front;
    }
  }

  lemma {:induction false} RanksOfIdle(n: nat, workers: seq<Worker>)
    requires forall i :: 0 <= i < |workers| ==> workers[i].Idle?
    ensures Ranks(n, workers) == 0
  {
    if workers != [] { RanksOfIdle(n, workers[..|workers| - 1]); }
  }

  /** The sets a worker goes through are sets of plan ports. */
  lemma PortsFit(plan: Plan, p: Progress)
    requires ValidProgress(p) && AccountsFor(p, plan)
    ensures |p.pending| <= |plan.ports| && |OpenPorts(p) - p.banners| <= |plan.ports|
  {
    SubsetCount(p.pending, plan.ports);
    SubsetCount(OpenPorts(p) - p.banners, plan.ports);
  }

  lemma AfterScanRank(plan: Plan, p: Progress)
    requires ValidProgress(p) && AccountsFor(p, plan)
    ensures Rank(|plan.ports|, AfterScan(plan, p)) <= 3 * |plan.ports| + 5
  {
    PortsFit(plan, p);
  }

  lemma TakeRank(n: nat, phase: Phase, holder: Holder, raised: Option<Fault>)
    requires phase.inflight == [] && phase.buffered != []
    ensures Rank(n, Scans(Take(phase, holder), raised)) < Rank(n, Scans(phase, raised))
  {
  }

  lemma ReportRank(n: nat, id: Identity, phase: Phase, r: PortResult, raised: Option<Fault>, limit: int)
    requires phase.inflight == [] && Accepts(phase, id, r)
    ensures Rank(n, Scans(Accept(phase, r, limit), raised)) < Rank(n, Scans(phase, raised))
  {
    var next := phase.(seen := phase.seen + {r.port}, pending := phase.pending - {r.port},
                       buffered := phase.buffered + [r]);
    assert |next.pending| == |phase.pending| - 1;
    if |next.buffered| >= limit { TakeRank(n, next, Callback, raised); }
  }

  /** The scan's share is more than what is left after it. */
  lemma ScanFloor(n: nat, phase: Phase, raised: Option<Fault>)
    ensures Rank(n, Scans(phase, raised)) >= 3 * n + 6
  {
  }

  lemma StageRanks(n: nat, phase: Phase, raised: Option<Fault>, other: Option<Fault>)
    ensures phase.stage == Scanning ==>
      Rank(n, Scans(phase.(stage := Joining), other)) < Rank(n, Scans(phase, raised))
    ensures phase.stage == Joining ==>
      Rank(n, Scans(phase.(stage := Stage.Joined), other)) < Rank(n, Scans(phase, raised))
  {
  }

  lemma ScanActDecreases(cfg: Config, plan: Plan, p: Progress, worker: Worker, act: Act)
    requires CanAct(cfg, p, worker, act) && worker.Scans?
    requires worker.phase.holder == Free ==> worker.phase.inflight == []
    requires ValidProgress(p) && AccountsFor(p, plan)
    ensures Rank(|plan.ports|, Acted(cfg, plan, p, worker, act)) < Rank(|plan.ports|, worker)
  {
    var n := |plan.ports|;
    match act {
      case Report(r) => ReportRank(n, p.identity, worker.phase, r, worker.raised, cfg.limit);
      case FlusherTake => TakeRank(n, worker.phase, Flusher, worker.raised);
      case FinalTake => TakeRank(n, worker.phase, Final, worker.raised);
      case ScanReturns(raised) => StageRanks(n, worker.phase, worker.raised, raised);
      case Join => StageRanks(n, worker.phase, worker.raised, worker.raised);
      case ScanFails(_) => ScanFloor(n, worker.phase, worker.raised);
      case ScanDone =>
        ScanFloor(n, worker.phase, worker.raised);
        AfterScanRank(plan, p);
      case _ =>
    }
  }

  lemma ActDecreases(cfg: Config, plan: Plan, p: Progress, worker: Worker, act: Act)
    requires WorkerInv(cfg, plan, p, worker) && CanAct(cfg, p, worker, act)
    requires ValidProgress(p) && AccountsFor(p, plan)
    ensures Rank(|plan.ports|, Acted(cfg, plan, p, worker, act)) < Rank(|plan.ports|, worker)
  {
    if worker.Scans? {
      ScanActDecreases(cfg, plan, p, worker, act);
    } else {
      AfterScanRank(plan, p);
      PortsFit(plan, p);
    }
  }

  lemma CommitRanks(n: nat, phase: Phase, raised: Option<Fault>)
    requires phase.inflight != [] && (phase.holder == Final ==> phase.stage == Stage.Joined)
    ensures Rank(n, Scans(Committed(phase), raised)) + 1 < Rank(n, Scans(phase, raised))
    ensures Rank(n, Scans(CommitFailed(phase), raised)) + 1 < Rank(n, Scans(phase, raised))
  {
  }

  lemma BannerRanks(n: nat, todo: set<int>, grab: Grab, fault: Fault)
    requires grab.port in todo
    ensures Rank(n, Banners(todo - {grab.port}, None)) + 1 < Rank(n, Banners(todo, Some(grab)))
    ensures Rank(n, Ended(Some(fault))) + 1 < Rank(n, Banners(todo, Some(grab)))
  {
    assert |todo - {grab.port}| == |todo| - 1;
  }

  /** A store call pays for the lock it releases, whether it succeeds or not. */
  lemma CallDecreases(cfg: Config, plan: Plan, p: Progress, worker: Worker, fault: Fault)
    requires WorkerInv(cfg, plan, p, worker) && Wants(worker)
    ensures Rank(|plan.ports|, WroteWorker(worker)) + 1 < Rank(|plan.ports|, worker)
    ensures Rank(|plan.ports|, WriteFailedWorker(worker, fault)) + 1 < Rank(|plan.ports|, worker)
  {
    if worker.Scans? {
      CommitRanks(|plan.ports|, worker.phase, worker.raised);
    } else {
      BannerRanks(|plan.ports|, worker.todo, worker.grabbed.value, fault);
    }
  }

  function LockRank(lock: Option<Held>): nat { if lock.None? then 1 else 0 }

  /** A step of one worker: coordinator and queue stay, and the worker's rank and the lock's go down together. */
  lemma WorkerStepUsesUp(plan: Plan, w: World, after: World, i: nat)
    requires InResume(w.main) && i < |w.workers| && |after.workers| == |w.workers|
    requires after.main == w.main && after.queue == w.queue && after.workers == w.workers[i := after.workers[i]]
    requires
      Rank(|plan.ports|, after.workers[i]) + LockRank(after.lock) < Rank(|plan.ports|, w.workers[i]) + LockRank(w.lock)
    ensures Left(plan, after) < Left(plan, w)
  {
    RanksUpdated(|plan.ports|, w.workers, i, after.workers[i]);
  }

  lemma LocalDecreases(cfg: Config, c: Checkpoint, w: World, i: nat, act: Act)
    requires i < |c.endpoints| == |w.workers| && InResume(w.main) && CanAct(cfg, c.endpoints[i], w.workers[i], act)
    requires WorkerInv(cfg, c.plan, c.endpoints[i], w.workers[i])
    requires ValidProgress(c.endpoints[i]) && AccountsFor(c.endpoints[i], c.plan)
    ensures var next := Acted(cfg, c.plan, c.endpoints[i], w.workers[i], act);
      Left(c.plan, w.(workers := w.workers[i := next])) < Left(c.plan, w)
  {
    var next := Acted(cfg, c.plan, c.endpoints[i], w.workers[i], act);
    ActDecreases(cfg, c.plan, c.endpoints[i], w.workers[i], act);
    WorkerStepUsesUp(c.plan, w, w.(workers := w.workers[i := next]), i);
  }

  lemma WritesDecrease(cfg: Config, c: Checkpoint, w: World, i: nat, base: Checkpoint, now: int, fault: Fault)
    requires i < |c.endpoints| == |w.workers| && InResume(w.main) && Wants(w.workers[i]) && w.lock.Some?
    requires WorkerInv(cfg, c.plan, c.endpoints[i], w.workers[i]) && i < |base.endpoints|
    ensures Left(c.plan, AfterWrite(cfg, w, i, base, now)) < Left(c.plan, w)
    ensures Left(c.plan, AfterWriteFails(w, i, fault)) < Left(c.plan, w)
  {
    CallDecreases(cfg, c.plan, c.endpoints[i], w.workers[i], fault);
    WorkerStepUsesUp(c.plan, w, AfterWrite(cfg, w, i, base, now), i);
    WorkerStepUsesUp(c.plan, w, AfterWriteFails(w, i, fault), i);
  }

  lemma FlusherDecreases(plan: Plan, w: World, i: nat)
    requires InResume(w.main) && i < |w.workers| && FlusherIsFailing(w.workers[i])
    ensures Left(plan, AfterFlusherFails(w, i)) < Left(plan, w)
  {
    WorkerStepUsesUp(plan, w, AfterFlusherFails(w, i), i);
  }

  /** A worker that takes a step is live, so the resume is going on. */
  lemma StepsWhileLive(cfg: Config, c: Checkpoint, w: World, step: Step)
    requires StoreInv(c, w.log) && VolatileInv(cfg, c, w) && w.store == Some(c)
    requires Enabled(cfg, w, step) && OfWorker(step)
    ensures var i := step.endpoint;
      && i < |c.endpoints| == |w.workers| && InResume(w.main) && WorkerInv(cfg, c.plan, c.endpoints[i], w.workers[i])
      && ValidProgress(c.endpoints[i]) && AccountsFor(c.endpoints[i], c.plan)
  {
    assert Live(w.workers[step.endpoint]);
  }

  lemma WorkerDecreases(cfg: Config, c: Checkpoint, w: World, step: Step)
    requires StoreInv(c, w.log) && VolatileInv(cfg, c, w) && w.store == Some(c)
    requires Enabled(cfg, w, step) && OfWorker(step)
    ensures Left(c.plan, Apply(cfg, w, step)) < Left(c.plan, w)
  {
    StepsWhileLive(cfg, c, w, step);
    CallsDecrease(cfg, c, w, step);
  }

  lemma CallsDecrease(cfg: Config, c: Checkpoint, w: World, step: Step)
    requires Enabled(cfg, w, step) && OfWorker(step) && w.store == Some(c)
    requires var i := step.endpoint;
      && i < |c.endpoints| == |w.workers| && InResume(w.main) && WorkerInv(cfg, c.plan, c.endpoints[i], w.workers[i])
      && ValidProgress(c.endpoints[i]) && AccountsFor(c.endpoints[i], c.plan)
    ensures Left(c.plan, Apply(cfg, w, step)) < Left(c.plan, w)
  {
    match step {
      case Local(i, act) => LocalDecreases(cfg, c, w, i, act);
      case Acquire(i) => WorkerStepUsesUp(c.plan, w, Apply(cfg, w, step), i);
      case Write(i, now) =>
        WritesDecrease(cfg, c, w, i, if cfg.incremental then c else w.lock.value.snapshot, now, ErrorFault(""));
      case WriteFails(i, fault) => WritesDecrease(cfg, c, w, i, c, 0, fault);
      case FlusherFails(i) => FlusherDecreases(c.plan, w, i);
    }
  }

  lemma ToRunningDecreases(c: Checkpoint, w: World, now: int)
    requires |w.workers| == |c.endpoints| && w.main == Admitted(c)
    ensures Left(c.plan, AfterToRunning(w, c, now)) < Left(c.plan, w)
  {
    var after := AfterToRunning(w, c, now);
    var queued, n := after.queue.queued, |c.plan.ports|;
    RanksOfIdle(n, after.workers);
    NeedingCount(Cleared(c.endpoints), c.plan, |c.endpoints|);
    MultiplyMonotone(ShareOf(n), |queued|, |w.workers|);
  }

  lemma {:induction false} NeedingCount(es: seq<Progress>, plan: Plan, n: nat)
    requires n <= |es|
    ensures |Needing(es, plan, n)| <= n
  {
    if n > 0 { NeedingCount(es, plan, n - 1); }
  }

  lemma SubmitDecreases(plan: Plan, w: World)
    requires w.main.Looping? && w.queue.queued != [] && w.queue.queued[0] < |w.workers|
    ensures Left(plan, AfterSubmit(w)) < Left(plan, w)
  {
    var n := |plan.ports|;
    RanksUpdated(n, w.workers, w.queue.queued[0], Submitted);
    assert ShareOf(n) * |w.queue.queued| == ShareOf(n) * |w.queue.queued[1..]| + ShareOf(n);
  }

  /** The coordinator handles a done or withdrawn worker: what it takes over is less than what the worker had left. */
  lemma SettleDecreases(plan: Plan, w: World, after: World, i: nat)
    requires InResume(w.main) && InResume(after.main) && i < |w.workers|
    requires after.queue.queued == w.queue.queued && after.lock == w.lock
    requires |after.workers| == |w.workers| && after.workers == w.workers[i := after.workers[i]]
    requires
      Rank(|plan.ports|, after.workers[i]) + MainRank(after.main) < Rank(|plan.ports|, w.workers[i]) + MainRank(w.main)
    ensures Left(plan, after) < Left(plan, w)
  {
    RanksUpdated(|plan.ports|, w.workers, i, after.workers[i]);
  }

  predicate OfQueue(step: Step) { step.Submit? || step.Reap? || step.Withdraw? }

  lemma QueueDecreases(cfg: Config, c: Checkpoint, w: World, step: Step)
    requires Enabled(cfg, w, step) && w.store == Some(c) && OfQueue(step)
    ensures Left(c.plan, Apply(cfg, w, step)) < Left(c.plan, w)
  {
    match step {
      case Submit => SubmitDecreases(c.plan, w);
      case Reap(i) => SettleDecreases(c.plan, w, AfterReap(w, i), i);
      case Withdraw(i) => SettleDecreases(c.plan, w, Apply(cfg, w, step), i);
    }
  }

  predicate OfMark(step: Step) { step.AcquireMark? || step.WriteMark? }

  lemma MarkDecreases(cfg: Config, plan: Plan, w: World, step: Step)
    requires Enabled(cfg, w, step) && OfMark(step)
    ensures Left(plan, Apply(cfg, w, step)) < Left(plan, w)
  {
  }

  predicate OfMain(step: Step) {
    step.Break? || step.Drained? || step.LastLook? || step.Admit? || step.CancelledBefore? || step.CloseCancelled?
    || step.Finalize?
  }

  lemma MainDecreases(cfg: Config, plan: Plan, w: World, step: Step)
    requires Enabled(cfg, w, step) && OfMain(step)
    ensures Left(plan, Apply(cfg, w, step)) < Left(plan, w)
  {
  }

  lemma CoordinatorDecreases(cfg: Config, c: Checkpoint, w: World, step: Step)
    requires VolatileInv(cfg, c, w) && w.store == Some(c) && Enabled(cfg, w, step)
    requires !OfWorker(step) && !step.CancelRequest? && Continues(step)
    ensures Left(c.plan, Apply(cfg, w, step)) < Left(c.plan, w)
  {
    if OfQueue(step) {
      QueueDecreases(cfg, c, w, step);
    } else if step.ToRunning? {
      ToRunningDecreases(c, w, step.now);
    } else if OfMark(step) {
      MarkDecreases(cfg, c.plan, w, step);
    } else {
      assert OfMain(step);
      MainDecreases(cfg, c.plan, w, step);
    }
  }

  /** Every step of a resume but a request to cancel uses up one of the steps it has left. */
  lemma StepUsesUp(cfg: Config, w: World, step: Step)
    requires BatchSafety.Inv(cfg, w) && Enabled(cfg, w, step) && w.store.Some? && !w.main.Down? && Continues(step)
    ensures var plan := w.store.value.plan;
      if step.CancelRequest? then Left(plan, Apply(cfg, w, step)) == Left(plan, w)
      else Left(plan, Apply(cfg, w, step)) < Left(plan, w)
  {
    if OfWorker(step) {
      WorkerDecreases(cfg, w.store.value, w, step);
    } else if !step.CancelRequest? {
      CoordinatorDecreases(cfg, w.store.value, w, step);
    }
  }

  /** The steps of a run that are not requests to cancel. */
  function Moves(steps: seq<Step>): nat
    decreases |steps|
  {
    if steps == [] then 0 else (if steps[0].CancelRequest? then 0 else 1) + Moves(steps[1..])
  }

  predicate AllCarry(steps: seq<Step>) { forall k :: 0 <= k < |steps| ==> Carries(steps[k]) }

  /** Some run without a failure, a crash or a cancellation leads to the end of the resume. */
  ghost predicate CanEnd(cfg: Config, w: World) {
    exists steps :: AllCarry(steps) && Legal(cfg, w, steps) && Execute(cfg, w, steps).main.Down?
  }

  lemma CanEndAfter(cfg: Config, w: World, step: Step)
    requires Enabled(cfg, w, step) && Carries(step) && CanEnd(cfg, Apply(cfg, w, step))
    ensures CanEnd(cfg, w)
  {
    var next := Apply(cfg, w, step);
    var rest :| AllCarry(rest) && Legal(cfg, next, rest) && Execute(cfg, next, rest).main.Down?;
    var steps := [step] + rest;
    assert steps[1..] == rest;
    assert AllCarry(steps) && Legal(cfg, w, steps) && Execute(cfg, w, steps).main.Down?;
  }

  lemma EndedCanEnd(cfg: Config, w: World)
    requires w.main.Down?
    ensures CanEnd(cfg, w)
  {
    assert AllCarry([]) && Legal(cfg, w, []) && Execute(cfg, w, []).main.Down?;
  }

  lemma PlanStays(cfg: Config, w: World, step: Step)
    requires BatchSafety.Inv(cfg, w) && Enabled(cfg, w, step) && w.store.Some?
    ensures var after := Apply(cfg, w, step);
      BatchSafety.Inv(cfg, after) && after.store.Some? && after.store.value.plan == w.store.value.plan
  {
    StepKeepsInv(cfg, w, step);
  }

  /** Wherever a resume is, it can be carried to its end without a failure, a crash or a cancellation. */
  lemma {:induction false} EndIsInReach(cfg: Config, w: World)
    requires BatchSafety.Inv(cfg, w) && w.store.Some?
    ensures CanEnd(cfg, w)
    decreases Left(w.store.value.plan, w)
  {
    if w.main.Down? {
      EndedCanEnd(cfg, w);
    } else {
      NotStuck(cfg, w);
      var step :| Enabled(cfg, w, step) && Carries(step);
      PlanStays(cfg, w, step);
      StepUsesUp(cfg, w, step);
      EndIsInReach(cfg, Apply(cfg, w, step));
      CanEndAfter(cfg, w, step);
    }
  }

  lemma OnlyCancelAfterTheEnd(cfg: Config, w: World, step: Step)
    requires BatchSafety.Inv(cfg, w) && Enabled(cfg, w, step) && w.store.Some? && w.main.Down? && Continues(step)
    ensures step.CancelRequest? && Apply(cfg, w, step).main.Down?
  {
    assert NoneLive(w.workers) && w.lock.None?;
  }

  lemma {:induction false} RunUsesUp(cfg: Config, w: World, steps: seq<Step>)
    requires BatchSafety.Inv(cfg, w) && Legal(cfg, w, steps) && w.store.Some?
    requires forall k :: 0 <= k < |steps| ==> Continues(steps[k])
    ensures var after := Execute(cfg, w, steps);
      && after.store.Some? && after.store.value.plan == w.store.value.plan
      && Moves(steps) + Left(w.store.value.plan, after) <= Left(w.store.value.plan, w)
    decreases |steps|
  {
    if steps != [] {
      assert Continues(steps[0]);
      StepKeepsInv(cfg, w, steps[0]);
      if w.main.Down? {
        OnlyCancelAfterTheEnd(cfg, w, steps[0]);
      } else {
        StepUsesUp(cfg, w, steps[0]);
      }
      RunUsesUp(cfg, Apply(cfg, w, steps[0]), steps[1..]);
    }
  }

  /** Every resume ends.  From the moment it has loaded the session it makes at most so many steps, whatever fails,
      however often it is cancelled and in whatever order workers, flushers and coordinator take turns. */
  lemma ResumesAreBounded(cfg: Config, w: World, steps: seq<Step>)
    requires BatchSafety.Inv(cfg, w) && Legal(cfg, w, steps) && w.store.Some? && w.main.Loaded?
    requires forall k :: 0 <= k < |steps| ==> Continues(steps[k])
    ensures Moves(steps) <= (8 * |w.store.value.plan.ports| + 11) * |w.store.value.endpoints| + 7
  {
    RunUsesUp(cfg, w, steps);
  }
}
