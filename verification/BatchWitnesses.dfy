/** A concrete batch session in which a cancellation comes too late: it ends COMPLETED with the cancel event set. */
module BatchWitnesses {
  import opened Common
  import opened Session
  import opened StoreV2Increments
  import opened BatchRunner
  import opened BatchSafety
  import ScanPhase

  const HOST := Identity("example.org", "192.0.2.1", IPv4, None, None)
  const PLAN := Plan([HOST], {80}, 1, 1, false, None, 0)
  const RESULT := PortResult(KeyOf(HOST), 80, Tcp, Open, None, 0)
  const CFG := Config(1, true)

  const CREATED := CreatedCheckpoint(0, PLAN, 0)
  const RUNNING := Advance(CREATED, Cleared(CREATED.endpoints), Running, None, 0)
  const SCANNED := RecordedAt(RUNNING, 0, [RESULT], 0, None)

  const REPORTED := ScanPhase.Accept(ScanPhase.Begin(RUNNING.endpoints[0]), RESULT, 1)
  const JOINED := ScanPhase.Committed(REPORTED).(stage := ScanPhase.Joined)

  /** The session while its one endpoint is active. */
  function At(c: Checkpoint, log: seq<Entry>, worker: Worker, lock: Option<Held>): World {
    World(Some(c), log, Looping, Queue([], {0}, 1), [worker], {0}, [0], lock, false)
  }

  const LOADED := World(Some(CREATED), [], Admitted(CREATED), Queue([], {}, 0), [Idle], {}, [], None, false)
  const QUEUED := World(Some(RUNNING), [Transition], Looping, Queue([0], {}, 1), [Idle], {0}, [], None, false)
  const STARTED := At(RUNNING, [Transition], Started, None)
  const COMMITTING := At(RUNNING, [Transition], Scans(REPORTED, None), Some(Held(ByWorker(0), RUNNING)))
  const LOG := [Transition, Confirmed(0, RESULT)]
  const COMMITTED := At(SCANNED, LOG, Scans(JOINED, None), None)
  const DRAINING := At(SCANNED, LOG, Reaped(false), None).(queue := Queue([], {}, 1), main := Draining)

  lemma PlanIsValid()
    ensures ValidPlan(PLAN) && PlanAllowed(MultiTarget, PLAN) && |CREATED.endpoints| == 1
    ensures CREATED.endpoints[0] == RUNNING.endpoints[0] == Progress(HOST, map[], {80}, {}, None)
    ensures |RUNNING.endpoints| == 1 && |SCANNED.endpoints| == 1
  {
    assert 80 in PLAN.ports;
  }

  lemma Loads()
    ensures var steps := [Create(0, PLAN, 0), Load(false), Admit];
      Legal(CFG, EMPTY_WORLD, steps) && Execute(CFG, EMPTY_WORLD, steps) == LOADED
  {
    PlanIsValid();
    ThreeSteps(CFG, EMPTY_WORLD, Create(0, PLAN, 0), Load(false), Admit);
  }

  /** One step from a state of the session to the next. */
  ghost predicate Leads(w: World, step: Step, next: World) { Enabled(CFG, w, step) && Apply(CFG, w, step) == next }

  lemma ThreeLead(w: World, a: Step, x: World, b: Step, y: World, c: Step, z: World)
    requires Leads(w, a, x) && Leads(x, b, y) && Leads(y, c, z)
    ensures Legal(CFG, w, [a, b, c]) && Execute(CFG, w, [a, b, c]) == z
  {
    ThreeSteps(CFG, w, a, b, c);
  }

  lemma RunningIsSet()
    ensures Leads(LOADED, ToRunning(0), QUEUED)
  {
    PlanIsValid();
    var cleared := Cleared(CREATED.endpoints);
    assert 80 in cleared[0].pending && Needing(cleared, PLAN, 0) == [] && Needing(cleared, PLAN, 1) == [0];
    var after := AfterToRunning(LOADED, CREATED, 0);
    assert after.workers == [Idle] && after.queue == Queue([0], {}, 1) && after.needing == {0};
  }

  lemma Starts()
    ensures var steps := [ToRunning(0), Submit, Local(0, Start)];
      Legal(CFG, LOADED, steps) && Execute(CFG, LOADED, steps) == STARTED
  {
    PlanIsValid();
    RunningIsSet();
    var submitted := At(RUNNING, [Transition], Submitted, None);
    assert Leads(QUEUED, Submit, submitted);
    assert Leads(submitted, Local(0, Start), STARTED);
    ThreeLead(LOADED, ToRunning(0), QUEUED, Submit, submitted, Local(0, Start), STARTED);
  }

  lemma Reports()
    ensures var steps := [Local(0, BeginScan), Local(0, Report(RESULT)), Acquire(0)];
      Legal(CFG, STARTED, steps) && Execute(CFG, STARTED, steps) == COMMITTING
  {
    PlanIsValid();
    assert 80 in RUNNING.endpoints[0].pending;
    var begun := At(RUNNING, [Transition], Scans(ScanPhase.Begin(RUNNING.endpoints[0]), None), None);
    var reported := At(RUNNING, [Transition], Scans(REPORTED, None), None);
    assert Leads(STARTED, Local(0, BeginScan), begun);
    assert Leads(begun, Local(0, Report(RESULT)), reported);
    ThreeLead(STARTED, Local(0, BeginScan), begun, Local(0, Report(RESULT)), reported, Acquire(0), COMMITTING);
  }

  lemma Writes()
    ensures Leads(COMMITTING, Write(0, 0), At(SCANNED, LOG, Scans(ScanPhase.Committed(REPORTED), None), None))
  {
    PlanIsValid();
    assert REPORTED.inflight == [RESULT] && ConfirmedAll(0, [RESULT]) == [Confirmed(0, RESULT)];
  }

  lemma Commits()
    ensures var steps := [Write(0, 0), Local(0, ScanReturns(None)), Local(0, Join)];
      Legal(CFG, COMMITTING, steps) && Execute(CFG, COMMITTING, steps) == COMMITTED
  {
    PlanIsValid();
    Writes();
    var phase := ScanPhase.Committed(REPORTED);
    var written := At(SCANNED, LOG, Scans(phase, None), None);
    var returned := At(SCANNED, LOG, Scans(phase.(stage := ScanPhase.Joining), None), None);
    assert Leads(written, Local(0, ScanReturns(None)), returned);
    assert Leads(returned, Local(0, Join), COMMITTED);
    ThreeLead(COMMITTING, Write(0, 0), written, Local(0, ScanReturns(None)), returned, Local(0, Join), COMMITTED);
  }

  lemma NothingIsLeft()
    ensures SCANNED.endpoints[0].pending == {}
  {
    assert [RESULT][..0] == [] && ByPort([RESULT]) == map[80 := RESULT];
  }

  lemma ScanEnds()
    ensures Leads(COMMITTED, Local(0, ScanDone), At(SCANNED, LOG, Ended(None), None))
  {
    PlanIsValid();
    NothingIsLeft();
  }

  lemma Finishes()
    ensures var steps := [Local(0, ScanDone), Reap(0), Break];
      Legal(CFG, COMMITTED, steps) && Execute(CFG, COMMITTED, steps) == DRAINING
  {
    PlanIsValid();
    ScanEnds();
    var ended, reaped := At(SCANNED, LOG, Ended(None), None), DRAINING.(main := Looping);
    assert Leads(ended, Reap(0), reaped);
    ThreeLead(COMMITTED, Local(0, ScanDone), ended, Reap(0), reaped, Break, DRAINING);
  }

  /** The whole of the work, up to the shutdown of the pool. */
  function Work(): seq<Step> {
    [Create(0, PLAN, 0), Load(false), Admit] + [ToRunning(0), Submit, Local(0, Start)]
    + [Local(0, BeginScan), Local(0, Report(RESULT)), Acquire(0)]
    + [Write(0, 0), Local(0, ScanReturns(None)), Local(0, Join)] + [Local(0, ScanDone), Reap(0), Break] + [Drained]
  }

  lemma WorkIsDone()
    ensures Legal(CFG, EMPTY_WORLD, Work())
    ensures Execute(CFG, EMPTY_WORLD, Work()) == WORKED
  {
    PlanIsValid();
    var a, b := [Create(0, PLAN, 0), Load(false), Admit], [ToRunning(0), Submit, Local(0, Start)];
    var c := [Local(0, BeginScan), Local(0, Report(RESULT)), Acquire(0)];
    var d, e := [Write(0, 0), Local(0, ScanReturns(None)), Local(0, Join)], [Local(0, ScanDone), Reap(0), Break];
    Loads();
    Starts();
    RunsJoin(CFG, EMPTY_WORLD, a, b);
    Reports();
    RunsJoin(CFG, EMPTY_WORLD, a + b, c);
    Commits();
    RunsJoin(CFG, EMPTY_WORLD, a + b + c, d);
    Finishes();
    RunsJoin(CFG, EMPTY_WORLD, a + b + c + d, e);
    OneStep(CFG, DRAINING, Drained);
    RunsJoin(CFG, EMPTY_WORLD, a + b + c + d + e, [Drained]);
  }

  const WORKED := DRAINING.(main := Closing)

  lemma WorkedIsSound()
    ensures BatchSafety.Inv(CFG, WORKED)
  {
    WorkIsDone();
    RunKeepsInv(CFG, EMPTY_WORLD, Work());
  }

  lemma WorkedShape()
    ensures WORKED.main.Closing? && !WORKED.cancel && WORKED.workers == [Reaped(false)]
    ensures WORKED.store.Some? && WORKED.store.value.createdAt == 0
  {
  }

  /** The resume of a session whose workers have all ended well is COMPLETED in spite of a late cancel. */
  lemma LateCancelCompletes(w: World)
    requires BatchSafety.Inv(CFG, w) && w.main.Closing? && !w.cancel && w.workers == [Reaped(false)]
    requires w.store.Some? && w.store.value.createdAt == 0
    ensures Legal(CFG, w, LateCancel(0))
    ensures var after := Execute(CFG, w, LateCancel(0));
      after.main.Down? && after.cancel && after.store.Some? && after.store.value.status == Completed
  {
    LateCancelIsIgnored(CFG, w, 0);
    assert !FailedWorker(w.workers);
  }

  /** Every worker has ended well, the last look finds the event unset, the event is set, the session is COMPLETED. */
  lemma LateCancelEndsCompleted()
    ensures Legal(CFG, EMPTY_WORLD, Work() + LateCancel(0))
    ensures var w := Execute(CFG, EMPTY_WORLD, Work() + LateCancel(0));
      w.main.Down? && w.cancel && w.store.Some? && w.store.value.status == Completed
  {
    WorkIsDone();
    WorkedIsSound();
    WorkedShape();
    LateCancelCompletes(WORKED);
    RunsJoin(CFG, EMPTY_WORLD, Work(), LateCancel(0));
  }
}
