/** Whole runs of the batch runner: one coordinator, one worker per endpoint with its own scan phase and flusher, all
    sharing one checkpoint under the state lock, interleaved at the granularity of lock operations, with
    cancellation, failures, crashes and any number of resumes.

    A store call under the state lock is two steps, `Acquire` and `Write`.  Without incremental commits, and always
    for an endpoint error, the caller loads a snapshot when it acquires the lock and later persists the whole
    snapshot with its own endpoint changed; that nothing is lost in between is a theorem, not part of the steps. */
module BatchRunner {
  import opened Common
  import opened Session
  import opened StoreV2Increments
  import opened ScanPhase

  /** The store's batch size, and whether it offers incremental commits (v2) or whole checkpoints only (v1). */
  datatype Config = Config(limit: nat, incremental: bool)

  predicate ValidConfig(cfg: Config) { cfg.limit >= 1 && (!cfg.incremental ==> cfg.limit == 1) }

  datatype Grab = Grab(port: int, banner: Option<string>)

  datatype Worker =
    | Idle
    | Submitted                                  // handed to the thread pool
    | Started
    | Scans(phase: Phase, raised: Option<Fault>)
    | Banners(todo: set<int>, grabbed: Option<Grab>)
    | Ended(outcome: Option<Fault>)              // the future is done
    | Reaped(failed: bool)                       // its outcome has been handled by the coordinator
    | Withdrawn                                  // its future was cancelled before it started

  predicate Live(worker: Worker) {
    worker.Submitted? || worker.Started? || worker.Scans? || worker.Banners?
  }

  datatype Queue = Queue(queued: seq<nat>, active: set<nat>, effective: int)

  datatype Main =
    | Down
    | Loaded(checkpoint: Checkpoint)
    | Admitted(checkpoint: Checkpoint)           // the first look has found the cancel event unset
    | Looping
    | Marking(endpoint: nat, text: string)       // an endpoint error is being recorded
    | Draining                                   // the pool is being shut down
    | Closing                                    // the pool is gone, the last look at the cancel event is ahead
    | Deciding                                   // the verdict is taken, and nobody looks at the cancel event any more

  datatype Owner = ByWorker(endpoint: nat) | ByMain

  datatype Held = Held(owner: Owner, snapshot: Checkpoint)

  /** One unit of the durable sequence. */
  datatype Entry =
    | Transition
    | Confirmed(endpoint: nat, result: PortResult)
    | Bannered(endpoint: nat, port: int, banner: Option<string>)
    | Errored(endpoint: nat, text: string)
    | Terminated

  datatype World = World(
    store: Option<Checkpoint>, log: seq<Entry>,
    main: Main, queue: Queue, workers: seq<Worker>,
    needing: set<nat>, starts: seq<nat>,         // this resume: endpoints needing work, endpoints submitted, in order
    lock: Option<Held>, cancel: bool)

  const EMPTY_WORLD := World(None, [], Down, Queue([], {}, 0), [], {}, [], None, false)

  // ---------- What one worker does between store calls ----------

  datatype Act =
    | Start
    | StartRaises(fault: Fault)
    | BeginScan
    | Report(result: PortResult)
    | FlusherTake
    | ScanReturns(raised: Option<Fault>)
    | Join
    | FinalTake
    | ScanFails(fault: Fault)
    | ScanDone
    | GrabBanner(grab: Grab)
    | BannerRaises(fault: Fault)
    | BannersDone

  predicate BannerLengthOk(banner: Option<string>) { banner.Some? ==> |banner.value| <= MAX_BANNER_LENGTH }

  predicate CanAct(cfg: Config, p: Progress, worker: Worker, act: Act) {
    match act
    case Start => worker.Submitted?
    case StartRaises(fault) => (worker.Submitted? || worker.Started?) && TextOk(fault)
    case BeginScan => worker.Started?
    case Report(r) => worker.Scans? && Accepts(worker.phase, p.identity, r)
    case FlusherTake => worker.Scans? && cfg.incremental && FlusherCanTake(worker.phase)
    case ScanReturns(raised) =>
      && worker.Scans? && worker.phase.stage == Scanning && worker.phase.holder != Callback
      && (raised.Some? ==> TextOk(raised.value))
    case Join => worker.Scans? && CanJoin(worker.phase)
    case FinalTake => worker.Scans? && FinalCanTake(worker.phase)
    case ScanFails(fault) => worker.Scans? && RaisesAfter(p, worker.phase, worker.raised, fault) && TextOk(fault)
    case ScanDone => worker.Scans? && SucceedsAfter(p, worker.phase, worker.raised)
    case GrabBanner(grab) =>
      worker.Banners? && worker.grabbed.None? && grab.port in worker.todo && BannerLengthOk(grab.banner)
    case BannerRaises(fault) => worker.Banners? && worker.grabbed.None? && TextOk(fault)
    case BannersDone => worker.Banners? && worker.grabbed.None? && worker.todo == {}
  }

  function AfterScan(plan: Plan, p: Progress): Worker {
    if plan.bannerGrab then Banners(OpenPorts(p) - p.banners, None) else Ended(None)
  }

  function Acted(cfg: Config, plan: Plan, p: Progress, worker: Worker, act: Act): Worker
    requires CanAct(cfg, p, worker, act)
  {
    match act
    case Start => Started
    case StartRaises(fault) => Ended(Some(fault))
    case BeginScan => if p.pending == {} then AfterScan(plan, p) else Scans(Begin(p), None)
    case Report(r) => worker.(phase := Accept(worker.phase, r, cfg.limit))
    case FlusherTake => worker.(phase := Take(worker.phase, Flusher))
    case ScanReturns(raised) => Scans(worker.phase.(stage := Joining), raised)
    case Join => worker.(phase := worker.phase.(stage := Joined))
    case FinalTake => worker.(phase := Take(worker.phase, Final))
    case ScanFails(fault) => Ended(Some(fault))
    case ScanDone => AfterScan(plan, p)
    case GrabBanner(grab) => worker.(grabbed := Some(grab))
    case BannerRaises(fault) => Ended(Some(fault))
    case BannersDone => Ended(None)
  }

  /** What holds of an endpoint's progress while its worker is at this point. */
  predicate WorkerInv(cfg: Config, plan: Plan, p: Progress, worker: Worker) {
    match worker
    case Submitted => p.error == None
    case Started => p.error == None
    case Scans(phase, raised) =>
      p.error == None && ScanPhase.Inv(p, phase, cfg.limit) && (raised.Some? ==> TextOk(raised.value))
    case Banners(todo, grabbed) =>
      && p.error == None && p.pending == {} && plan.bannerGrab && todo == OpenPorts(p) - p.banners
      && (grabbed.Some? ==> grabbed.value.port in todo && BannerLengthOk(grabbed.value.banner))
    case Ended(outcome) =>
      p.error == None && (if outcome.None? then Finished(p, plan) else TextOk(outcome.value))
    case _ => true
  }

  lemma ActKeepsInv(cfg: Config, plan: Plan, p: Progress, worker: Worker, act: Act)
    requires ValidConfig(cfg) && ValidProgress(p)
    requires WorkerInv(cfg, plan, p, worker) && CanAct(cfg, p, worker, act)
    ensures WorkerInv(cfg, plan, p, Acted(cfg, plan, p, worker, act))
  {
    if act.BeginScan? {
      BeginInv(p, cfg.limit);
    } else if act.Report? {
      AcceptInv(p, worker.phase, act.result, cfg.limit);
    } else if act.FlusherTake? {
      TakeInv(p, worker.phase, Flusher, cfg.limit);
    } else if act.FinalTake? {
      TakeInv(p, worker.phase, Final, cfg.limit);
    } else if act.ScanReturns? || act.Join? {
      assert Unconfirmed(Acted(cfg, plan, p, worker, act).phase) == Unconfirmed(worker.phase);
    }
  }

  // ---------- Store calls of a worker ----------

  /** The worker is at a store call: a batch is taken, or a banner is grabbed. */
  predicate Wants(worker: Worker) {
    (worker.Scans? && worker.phase.holder != Free) || (worker.Banners? && worker.grabbed.Some?)
  }

  /** The checkpoint a worker writes: v2 adds to what is stored, v1 persists its snapshot with one endpoint changed. */
  function Written(cfg: Config, base: Checkpoint, i: nat, worker: Worker, now: int): (c: Checkpoint)
    requires i < |base.endpoints| && Wants(worker)
    ensures |c.endpoints| == |base.endpoints|
  {
    var next :=
      if worker.Scans? then RecordedAt(base, i, worker.phase.inflight, now, None)
      else BanneredAt(base, i, worker.grabbed.value.port, worker.grabbed.value.banner, now);
    if cfg.incremental then next else next.(endpoints := next.endpoints[i := WithError(next.endpoints[i], None)])
  }

  function ConfirmedAll(i: nat, batch: seq<PortResult>): seq<Entry> {
    seq(|batch|, k requires 0 <= k < |batch| => Confirmed(i, batch[k]))
  }

  function WrittenEntries(i: nat, worker: Worker): seq<Entry>
    requires Wants(worker)
  {
    if worker.Scans? then ConfirmedAll(i, worker.phase.inflight)
    else [Bannered(i, worker.grabbed.value.port, worker.grabbed.value.banner)]
  }

  function WroteWorker(worker: Worker): Worker
    requires Wants(worker)
  {
    if worker.Scans? then worker.(phase := Committed(worker.phase))
    else Banners(worker.todo - {worker.grabbed.value.port}, None)
  }

  function WriteFailedWorker(worker: Worker, fault: Fault): Worker
    requires Wants(worker)
  {
    if worker.Scans? then worker.(phase := CommitFailed(worker.phase)) else Ended(Some(fault))
  }

  // ---------- Closing a resume ----------

  predicate NeedsWork(p: Progress, plan: Plan) {
    p.pending != {} || p.error.Some? || (plan.bannerGrab && p.banners != OpenPorts(p))
  }

  function Truncated(text: string): string {
    if |text| <= MAX_ERROR_LENGTH then text else text[..MAX_ERROR_LENGTH]
  }

  /** The endpoint errors joined by "; ". */
  function Errors(es: seq<Progress>): string {
    if es == [] then ""
    else
      var before, last := Errors(es[..|es| - 1]), es[|es| - 1].error;
      if last.None? then before else if before == "" then last.value else before + "; " + last.value
  }

  predicate AnyError(es: seq<Progress>) { exists i :: 0 <= i < |es| && es[i].error.Some? }

  const PENDING_WORK := "La ejecucion termino con trabajo pendiente para "

  function PendingText(id: Identity): string {
    Truncated(PENDING_WORK + id.requested + " (" + id.address + ").")
  }

  /** Marks every endpoint among the first `n` that still needs work, one persisted checkpoint each. */
  function MarkPending(c: Checkpoint, n: nat, now: int): (r: Checkpoint)
    requires n <= |c.endpoints|
    ensures |r.endpoints| == |c.endpoints|
  {
    if n == 0 then c
    else
      var before := MarkPending(c, n - 1, now);
      var p := c.endpoints[n - 1];
      if NeedsWork(p, c.plan) then
        Advance(before, before.endpoints[n - 1 := WithError(before.endpoints[n - 1], Some(PendingText(p.identity)))],
                Running, None, now)
      else before
  }

  function MarkEntries(c: Checkpoint, n: nat): seq<Entry>
    requires n <= |c.endpoints|
  {
    if n == 0 then []
    else
      MarkEntries(c, n - 1)
      + if NeedsWork(c.endpoints[n - 1], c.plan) then [Errored(n - 1, PendingText(c.endpoints[n - 1].identity))] else []
  }

  function FailedBy(c: Checkpoint, now: int): Checkpoint {
    Advance(c, c.endpoints, Failed, Some(Truncated(Errors(c.endpoints))), now)
  }

  /** `_finalize_from_current`, with its branch for work that is still pending. */
  function Verdict(c: Checkpoint, now: int): Checkpoint {
    if AnyError(c.endpoints) then FailedBy(c, now)
    else
      var marked := MarkPending(c, |c.endpoints|, now);
      if AnyError(marked.endpoints) then FailedBy(marked, now)
      else Advance(marked, marked.endpoints, Completed, None, now)
  }

  function VerdictEntries(c: Checkpoint): seq<Entry> {
    (if AnyError(c.endpoints) then [] else MarkEntries(c, |c.endpoints|)) + [Terminated]
  }

  // ---------- Steps ----------

  datatype Step =
    | Create(sessionId: int, plan: Plan, now: int)
    | Load(cancelled: bool)
    | CancelledBefore(now: int)
    | Admit
    | ToRunning(now: int)
    | CancelRequest
    | Submit
    | Reap(endpoint: nat)
    | AcquireMark
    | WriteMark(now: int)
    | Break
    | Withdraw(endpoint: nat)
    | Drained
    | LastLook
    | CloseCancelled(now: int)
    | Finalize(now: int)
    | Crash
    | Local(endpoint: nat, act: Act)
    | Acquire(endpoint: nat)
    | Write(endpoint: nat, now: int)
    | WriteFails(endpoint: nat, fault: Fault)
    | FlusherFails(endpoint: nat)

  function Cleared(es: seq<Progress>): seq<Progress> {
    seq(|es|, i requires 0 <= i < |es| => WithError(es[i], None))
  }

  /** The positions of the endpoints that need work, ascending. */
  function Needing(es: seq<Progress>, plan: Plan, n: nat): (r: seq<nat>)
    requires n <= |es|
    ensures NoRepeats(r) && forall i: nat :: i in r <==> i < n && NeedsWork(es[i], plan)
  {
    if n == 0 then []
    else
      var before := Needing(es, plan, n - 1);
      assert n - 1 !in before;
      if NeedsWork(es[n - 1], plan) then before + [n - 1] else before
  }

  function Min(a: int, b: int): int { if a < b then a else b }

  function EffectiveWorkers(plan: Plan, needing: nat): int {
    Min(Min(plan.targetWorkers, needing), plan.threads)
  }

  predicate CreateEnabled(w: World, step: Step)
    requires step.Create?
  {
    w.store.None? && w.main.Down? && ValidPlan(step.plan) && PlanAllowed(MultiTarget, step.plan)
  }

  predicate Enabled(cfg: Config, w: World, step: Step) {
    if step.Create? then CreateEnabled(w, step)
    else if step.Crash? then true
    else if w.store.None? || |w.workers| != |w.store.value.endpoints| then false
    else
      var c, n := w.store.value, |w.store.value.endpoints|;
      match step
      case Load(_) => w.main.Down?
      case CancelledBefore(now) => w.main.Loaded? && w.cancel && w.main.checkpoint.createdAt <= now
      case Admit => w.main.Loaded? && !w.cancel
      case ToRunning(now) => w.main.Admitted? && w.main.checkpoint.createdAt <= now
      case CancelRequest => true
      case Submit =>
        && w.main.Looping? && !w.cancel && w.queue.queued != []
        && |w.queue.active| < w.queue.effective && w.queue.queued[0] < n
      case Reap(i) => w.main.Looping? && i in w.queue.active && i < n && w.workers[i].Ended?
      case AcquireMark => w.main.Marking? && w.lock.None?
      case WriteMark(now) =>
        && w.main.Marking? && w.lock.Some? && w.lock.value.owner == ByMain
        && w.main.endpoint < |w.lock.value.snapshot.endpoints| && w.lock.value.snapshot.createdAt <= now
      case Break => w.main.Looping? && (w.cancel || (w.queue.queued == [] && w.queue.active == {}))
      case Withdraw(i) => w.main.Draining? && w.cancel && i < n && w.workers[i].Submitted?
      case Drained => w.main.Draining? && forall i :: 0 <= i < n ==> !Live(w.workers[i])
      case LastLook => w.main.Closing? && !w.cancel
      case CloseCancelled(now) => w.main.Closing? && w.cancel && c.createdAt <= now
      case Finalize(now) => w.main.Deciding? && c.createdAt <= now
      case Local(i, act) => i < n && CanAct(cfg, c.endpoints[i], w.workers[i], act)
      case Acquire(i) => w.lock.None? && i < n && Wants(w.workers[i])
      case Write(i, now) =>
        && w.lock.Some? && w.lock.value.owner == ByWorker(i) && i < n && Wants(w.workers[i])
        && |w.lock.value.snapshot.endpoints| == n
        && (if cfg.incremental then c.updatedAt else c.createdAt) <= now
      case WriteFails(i, fault) =>
        w.lock.Some? && w.lock.value.owner == ByWorker(i) && i < n && Wants(w.workers[i]) && TextOk(fault)
      case FlusherFails(i) => i < n && w.workers[i].Scans? && w.workers[i].phase.failing
  }

  function Durable(w: World, c: Checkpoint, entries: seq<Entry>): World {
    w.(store := Some(c), log := w.log + entries)
  }

  /** RUNNING is persisted with every error cleared; the queue holds the endpoints that need work. */
  function AfterToRunning(w: World, from: Checkpoint, now: int): World {
    var cleared := Cleared(from.endpoints);
    var needing := Needing(cleared, from.plan, |cleared|);
    Durable(w, Advance(from, cleared, Running, None, now), [Transition])
    .(main := if needing == [] then Deciding else Looping,
      queue := Queue(needing, {}, EffectiveWorkers(from.plan, |needing|)),
      workers := seq(|w.workers|, _ => Idle), needing := Elems(needing), starts := [])
  }

  function AfterSubmit(w: World): World
    requires w.queue.queued != [] && w.queue.queued[0] < |w.workers|
  {
    var i := w.queue.queued[0];
    w.(queue := w.queue.(queued := w.queue.queued[1..], active := w.queue.active + {i}),
       workers := w.workers[i := Submitted], starts := w.starts + [i])
  }

  /** The coordinator handles the outcome of a finished worker. */
  function AfterReap(w: World, i: nat): World
    requires i < |w.workers| && w.workers[i].Ended?
  {
    var outcome := w.workers[i].outcome;
    var next := w.(workers := w.workers[i := Reaped(outcome.Some?)],
                   queue := w.queue.(active := w.queue.active - {i}));
    if outcome.None? then next
    else if outcome.value.CancelFault? then next.(cancel := true)
    else next.(main := Marking(i, outcome.value.text))
  }

  /** The snapshot is persisted with the error of endpoint `i` set. */
  function AfterWriteMark(w: World, i: nat, text: string, from: Checkpoint, now: int): World
    requires i < |from.endpoints|
  {
    Durable(w, Advance(from, from.endpoints[i := WithError(from.endpoints[i], Some(text))], Running, None, now),
            [Errored(i, text)])
    .(main := Looping, lock := None)
  }

  function AfterWrite(cfg: Config, w: World, i: nat, base: Checkpoint, now: int): World
    requires i < |w.workers| && Wants(w.workers[i]) && i < |base.endpoints|
  {
    Durable(w, Written(cfg, base, i, w.workers[i], now), WrittenEntries(i, w.workers[i]))
    .(workers := w.workers[i := WroteWorker(w.workers[i])], lock := None)
  }

  function AfterWriteFails(w: World, i: nat, fault: Fault): World
    requires i < |w.workers| && Wants(w.workers[i])
  {
    w.(workers := w.workers[i := WriteFailedWorker(w.workers[i], fault)], lock := None)
  }

  /** After a failed store call the periodic flusher records its error and sets the shared cancel event. */
  function AfterFlusherFails(w: World, i: nat): World
    requires i < |w.workers| && w.workers[i].Scans?
  {
    var worker := w.workers[i];
    w.(workers := w.workers[i := worker.(phase := FlushErrorRecorded(worker.phase))], cancel := true)
  }

  function AfterClose(w: World, c: Checkpoint, entries: seq<Entry>): World {
    Durable(w, c, entries).(main := Down)
  }

  function Apply(cfg: Config, w: World, step: Step): World
    requires Enabled(cfg, w, step)
  {
    if step.Create? then
      w.(store := Some(CreatedCheckpoint(step.sessionId, step.plan, step.now)),
         workers := seq(|step.plan.targets|, _ => Idle))
    else if step.Crash? then
      w.(main := Down, workers := seq(|w.workers|, _ => Idle), lock := None)
    else
      var c := w.store.value;
      match step
      case Load(cancelled) => if c.status == Completed then w else w.(main := Loaded(c), cancel := cancelled)
      case CancelledBefore(now) =>
        var from := w.main.checkpoint;
        AfterClose(w, Advance(from, from.endpoints, Cancelled, Some("cancelled_before_execution"), now), [Terminated])
      case Admit => w.(main := Admitted(w.main.checkpoint))
      case ToRunning(now) => AfterToRunning(w, w.main.checkpoint, now)
      case CancelRequest => w.(cancel := true)
      case Submit => AfterSubmit(w)
      case Reap(i) => AfterReap(w, i)
      case AcquireMark => w.(lock := Some(Held(ByMain, c)))
      case WriteMark(now) => AfterWriteMark(w, w.main.endpoint, w.main.text, w.lock.value.snapshot, now)
      case Break => w.(main := Draining)
      case Withdraw(i) => w.(workers := w.workers[i := Withdrawn])
      case Drained => w.(main := Closing)
      case LastLook => w.(main := Deciding)
      case CloseCancelled(now) =>
        AfterClose(w, Advance(c, c.endpoints, Cancelled, Some("cancelled_by_user"), now), [Terminated])
      case Finalize(now) => AfterClose(w, Verdict(c, now), VerdictEntries(c))
      case Local(i, act) =>
        w.(workers := w.workers[i := Acted(cfg, c.plan, c.endpoints[i], w.workers[i], act)])
      case Acquire(i) => w.(lock := Some(Held(ByWorker(i), c)))
      case Write(i, now) => AfterWrite(cfg, w, i, if cfg.incremental then c else w.lock.value.snapshot, now)
      case WriteFails(i, fault) => AfterWriteFails(w, i, fault)
      case FlusherFails(i) => AfterFlusherFails(w, i)
  }
}
