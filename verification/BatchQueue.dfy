/** The coordinator of a batch resume as the code runs it: the looks at the cancel event, the queue loop, the shutdown
    of the pool and the verdict, while workers, flushers and cancellations take their turns in between.  Every action
    is a step of the machine `BatchRunner`, so what is proved of its runs holds of the coordinator's. */
module BatchQueue {
  import opened Common
  import opened Session
  import opened BatchRunner
  import opened BatchSafety
  import opened BatchLiveness
  import Contents = BatchContents

  /** A step that is not the coordinator's. */
  predicate OfOthers(step: Step) { OfWorker(step) || step.CancelRequest? }

  predicate HeldByMain(lock: Option<Held>) { lock.Some? && lock.value.owner == ByMain }

  predicate SamePlan(before: Option<Checkpoint>, after: Option<Checkpoint>) {
    && before.Some? && after.Some?
    && after.value.plan == before.value.plan && after.value.createdAt == before.value.createdAt
  }

  /** Only live workers move, and each of them stays live or ends. */
  predicate WorkersGoOn(before: seq<Worker>, after: seq<Worker>) {
    |after| == |before| && forall i :: 0 <= i < |before| ==>
      if Live(before[i]) then Live(after[i]) || after[i].Ended? else after[i] == before[i]
  }

  /** What goes on around the coordinator keeps: the queue, every worker that is not live, the cancel event once it is
      set, and the session; a live worker stays live or ends, and the resume gets no longer. */
  predicate Kept(before: World, after: World) {
    && after.queue == before.queue && after.starts == before.starts && WorkersGoOn(before.workers, after.workers)
    && (before.cancel ==> after.cancel) && SamePlan(before.store, after.store)
    && Left(before.store.value.plan, after) <= Left(before.store.value.plan, before)
  }

  /** The others also leave the coordinator alone, and the lock when he holds it. */
  predicate Undisturbed(before: World, after: World) {
    Kept(before, after) && after.main == before.main && (HeldByMain(after.lock) <==> HeldByMain(before.lock))
  }

  lemma KeptOn(a: World, b: World, c: World)
    requires Kept(a, b) && Kept(b, c)
    ensures Kept(a, c)
  {
  }

  lemma UndisturbedOn(a: World, b: World, c: World)
    requires Undisturbed(a, b) && Undisturbed(b, c)
    ensures Undisturbed(a, c)
  {
    KeptOn(a, b, c);
  }

  lemma CoordinatorStays(cfg: Config, w: World, step: Step)
    requires Enabled(cfg, w, step) && OfOthers(step) && w.store.Some?
    ensures var after := Apply(cfg, w, step);
      after.main == w.main && after.queue == w.queue && after.starts == w.starts && (w.cancel ==> after.cancel)
  {
  }

  lemma WorkersMove(cfg: Config, w: World, step: Step)
    requires Enabled(cfg, w, step) && OfOthers(step) && w.store.Some?
    ensures WorkersGoOn(w.workers, Apply(cfg, w, step).workers)
  {
    if OfWorker(step) && !step.Acquire? {
      OneWorkerMoves(cfg, w, step);
    }
  }

  lemma OneWorkerMoves(cfg: Config, w: World, step: Step)
    requires Enabled(cfg, w, step) && OfWorker(step) && !step.Acquire? && w.store.Some?
    ensures var after, i := Apply(cfg, w, step).workers, step.endpoint;
      && i < |w.workers| && Live(w.workers[i]) && |after| == |w.workers| && after == w.workers[i := after[i]]
      && (Live(after[i]) || after[i].Ended?)
  {
  }

  lemma LockMoves(cfg: Config, w: World, step: Step)
    requires Enabled(cfg, w, step) && OfOthers(step) && w.store.Some?
    ensures HeldByMain(Apply(cfg, w, step).lock) <==> HeldByMain(w.lock)
  {
  }

  lemma OthersLeave(cfg: Config, w: World, step: Step)
    requires BatchSafety.Inv(cfg, w) && Enabled(cfg, w, step) && OfOthers(step) && w.store.Some? && !w.main.Down?
    ensures Undisturbed(w, Apply(cfg, w, step))
  {
    CoordinatorStays(cfg, w, step);
    WorkersMove(cfg, w, step);
    LockMoves(cfg, w, step);
    StepKeepsInv(cfg, w, step);
    StepUsesUp(cfg, w, step);
  }

  lemma SessionStays(cfg: Config, w: World, step: Step)
    requires BatchSafety.Inv(cfg, w) && Enabled(cfg, w, step) && w.store.Some?
    ensures SamePlan(w.store, Apply(cfg, w, step).store)
  {
    StepKeepsInv(cfg, w, step);
  }

  lemma MarkLeaves(cfg: Config, w: World, step: Step)
    requires Enabled(cfg, w, step) && OfMark(step) && w.store.Some?
    ensures var after := Apply(cfg, w, step);
      && after.queue == w.queue && after.starts == w.starts && after.workers == w.workers && after.cancel == w.cancel
      && if step.AcquireMark? then after.main == w.main && HeldByMain(after.lock) else after.main.Looping?
  {
  }

  ghost predicate InBounds(w: World) { w.store.Some? && InResume(w.main) ==> WithinBounds(w.store.value, w) }

  lemma {:induction false} PrefixIsLegal(cfg: Config, w: World, steps: seq<Step>, k: nat)
    requires Legal(cfg, w, steps) && k <= |steps|
    ensures Legal(cfg, w, steps[..k])
    decreases |steps|
  {
    if k > 0 {
      PrefixIsLegal(cfg, Apply(cfg, w, steps[0]), steps[1..], k - 1);
      assert steps[..k][1..] == steps[1..][..k - 1];
    }
  }

  /** How a resume leaves the session: as of its last clock reading, and with the text that goes with its status. */
  predicate Concluded(d: Checkpoint, cancelText: string, now: int) {
    && d.updatedAt == now
    && (d.status == Cancelled ==> d.lastError == Some(cancelText))
    && (d.status == Failed ==>
          d.lastError.Some? && Contents.CutOff(d.lastError.value, Contents.Joined(Contents.Texts(d.endpoints))))
    && (d.status == Completed ==> d.lastError == None && Contents.Texts(d.endpoints) == [])
  }

  predicate EndsResume(step: Step) { step.CancelledBefore? || step.CloseCancelled? || step.Finalize? }

  function CancelText(before: bool): string {
    if before then "cancelled_before_execution" else "cancelled_by_user"
  }

  lemma LastStepConcludes(cfg: Config, w: World, step: Step)
    requires BatchSafety.Inv(cfg, w) && Enabled(cfg, w, step) && w.store.Some?
    requires EndsResume(step)
    ensures Apply(cfg, w, step).store.Some? && Apply(cfg, w, step).main.Down?
    ensures Concluded(Apply(cfg, w, step).store.value, CancelText(step.CancelledBefore?), step.now)
  {
    Contents.StepContents(cfg, w, step);
  }

  class Coordinator {
    const cfg: Config
    const surroundings: nat -> seq<Step>    // what the others attempt in each gap between two of its actions
    const readings: nat -> int              // what its clock says in each gap
    ghost const before: seq<Step>
    ghost const origin: World
    var gap: nat
    var world: World
    ghost var trace: seq<Step>

    /** The run so far, from a state that some run of the machine leads to, without a crash or another resume. */
    ghost predicate Valid()
      reads this
    {
      && ValidConfig(cfg) && Legal(cfg, EMPTY_WORLD, before) && Execute(cfg, EMPTY_WORLD, before) == origin
      && Legal(cfg, origin, trace) && Execute(cfg, origin, trace) == world
      && (forall k :: 0 <= k < |trace| ==> Continues(trace[k]))
      && world.store.Some? && forall k :: world.store.value.createdAt <= readings(k)
    }

    lemma IsSound()
      requires Valid()
      ensures BatchSafety.Inv(cfg, origin) && BatchSafety.Inv(cfg, world)
    {
      RunKeepsInv(cfg, EMPTY_WORLD, before);
      RunKeepsInv(cfg, origin, trace);
    }

    ghost function Remaining(): nat
      reads this
      requires world.store.Some?
    {
      Left(world.store.value.plan, world)
    }

    constructor (cfg: Config, ghost before: seq<Step>, start: World, surroundings: nat -> seq<Step>,
                 readings: nat -> int)
      requires ValidConfig(cfg) && Legal(cfg, EMPTY_WORLD, before) && Execute(cfg, EMPTY_WORLD, before) == start
      requires start.store.Some? && forall k :: start.store.value.createdAt <= readings(k)
      ensures Valid() && world == start == origin && trace == []
      ensures this.cfg == cfg && this.surroundings == surroundings && this.readings == readings
    {
      this.cfg, this.surroundings, this.readings := cfg, surroundings, readings;
      this.before, origin, gap, world, trace := before, start, 0, start, [];
    }

    /** One step of the machine. */
    method Do(step: Step)
      requires Valid() && Enabled(cfg, world, step) && Continues(step)
      modifies this`world, this`trace
      ensures Valid() && world == Apply(cfg, old(world), step) && trace == old(trace) + [step]
    {
      RunsOn(cfg, origin, trace, step);
      IsSound();
      SessionStays(cfg, world, step);
      world := Apply(cfg, world, step);
      trace := trace + [step];
    }

    /** A step of the others. */
    method Other(step: Step)
      requires Valid() && Enabled(cfg, world, step) && OfOthers(step) && !world.main.Down?
      modifies this`world, this`trace
      ensures Valid() && Undisturbed(old(world), world) && old(trace) <= trace
      ensures !step.CancelRequest? ==> Remaining() < old(Remaining())
    {
      IsSound();
      OthersLeave(cfg, world, step);
      StepUsesUp(cfg, world, step);
      Do(step);
    }

    /** The others take their turns: each step they attempt happens if it can. */
    method Gap()
      requires Valid() && !world.main.Down?
      modifies this`world, this`trace, this`gap
      ensures Valid() && Undisturbed(old(world), world) && old(trace) <= trace
    {
      var steps := surroundings(gap);
      gap := gap + 1;
      for k := 0 to |steps|
        invariant Valid() && Undisturbed(old(world), world) && old(trace) <= trace
      {
        if OfOthers(steps[k]) && Enabled(cfg, world, steps[k]) {
          ghost var last := world;
          Other(steps[k]);
          UndisturbedOn(old(world), last, world);
        }
      }
    }

    method SomePort(worker: Worker) returns (port: int)
      ensures IsNext(worker, port)
    {
      port := 0;
      if worker.Banners? {
        if exists p :: p in worker.todo {
          port :| port in worker.todo;
        } else {
          assert worker.todo == {};
        }
      }
    }

    lemma HolderCanWrite()
      requires Valid() && world.lock.Some? && !HeldByMain(world.lock)
      ensures Enabled(cfg, world, Write(world.lock.value.owner.endpoint, world.store.value.updatedAt))
    {
      IsSound();
    }

    /** Waiting: somebody else takes a step. */
    method WorkerSteps()
      requires Valid() && InResume(world.main) && !HeldByMain(world.lock)
      requires world.lock.Some? || !NoneLive(world.workers)
      modifies this`world, this`trace
      ensures Valid() && Undisturbed(old(world), world) && old(trace) <= trace && Remaining() < old(Remaining())
    {
      if world.lock.Some? {
        HolderCanWrite();
        Other(Write(world.lock.value.owner.endpoint, world.store.value.updatedAt));
      } else {
        var i :| 0 <= i < |world.workers| && Live(world.workers[i]);
        var port := SomePort(world.workers[i]);
        IsSound();
        BatchLiveness.WorkerSteps(cfg, world, i, port);
        Other(NextStep(world.store.value.endpoints[i], world.workers[i], i, port));
      }
    }

    /** The others take their turns, and if somebody still holds the lock, he goes on. */
    method LockTurn()
      requires Valid() && InResume(world.main) && !HeldByMain(world.lock)
      modifies this`world, this`trace, this`gap
      ensures Valid() && Undisturbed(old(world), world) && old(trace) <= trace
      ensures world.lock.Some? ==> Remaining() < old(Remaining())
    {
      Gap();
      if world.lock.Some? {
        ghost var last := world;
        WorkerSteps();
        UndisturbedOn(old(world), last, world);
      }
    }

    /** Waits until nobody holds the state lock. */
    method AwaitLock()
      requires Valid() && InResume(world.main) && !HeldByMain(world.lock)
      modifies this`world, this`trace, this`gap
      ensures Valid() && Undisturbed(old(world), world) && old(trace) <= trace && world.lock.None?
    {
      while world.lock.Some?
        invariant Valid() && Undisturbed(old(world), world) && old(trace) <= trace
        decreases Remaining(), world.lock.Some?
      {
        ghost var last := world;
        LockTurn();
        UndisturbedOn(old(world), last, world);
      }
    }

    /** The active endpoints whose futures are done. */
    function DoneOf(active: set<nat>): set<nat>
      reads this
    {
      set i | i in active && i < |world.workers| && world.workers[i].Ended?
    }

    lemma SomeoneIsLive(active: set<nat>)
      requires Valid() && world.main.Looping? && active == world.queue.active != {} && DoneOf(active) == {}
      ensures !NoneLive(world.workers) && !HeldByMain(world.lock)
    {
      IsSound();
      var i :| i in active;
      ActiveEndpoint(cfg, world.store.value, world, i);
      assert world.workers[i].Ended? ==> i in DoneOf(active);
    }

    /** The others take their turns, and if nobody is done, somebody goes on. */
    method ActiveTurn(active: set<nat>) returns (done: set<nat>)
      requires Valid() && world.main.Looping? && active == world.queue.active != {}
      modifies this`world, this`trace, this`gap
      ensures Valid() && Undisturbed(old(world), world) && old(trace) <= trace && done == DoneOf(active)
      ensures done == {} ==> Remaining() < old(Remaining())
    {
      Gap();
      if DoneOf(active) == {} {
        SomeoneIsLive(active);
        ghost var last := world;
        WorkerSteps();
        UndisturbedOn(old(world), last, world);
      }
      done := DoneOf(active);
    }

    /** Waits until one of the active endpoints is done, and returns those that are. */
    method AwaitOne(active: set<nat>) returns (done: set<nat>)
      requires Valid() && world.main.Looping? && active == world.queue.active != {}
      modifies this`world, this`trace, this`gap
      ensures Valid() && Undisturbed(old(world), world) && old(trace) <= trace
      ensures done == DoneOf(active) != {}
    {
      done := DoneOf(active);
      while done == {}
        invariant Valid() && Undisturbed(old(world), world) && old(trace) <= trace && done == DoneOf(active)
        decreases Remaining(), done == {}
      {
        ghost var last := world;
        done := ActiveTurn(active);
        UndisturbedOn(old(world), last, world);
      }
    }

    // ---------- The coordinator's own steps ----------

    /** A step of the coordinator. */
    method Act(step: Step)
      requires Valid() && Enabled(cfg, world, step) && Continues(step) && !OfOthers(step) && !world.main.Down?
      modifies this`world, this`trace
      ensures Valid() && world == Apply(cfg, old(world), step) && old(trace) <= trace
      ensures Remaining() < old(Remaining()) && SamePlan(old(world).store, world.store)
    {
      IsSound();
      StepUsesUp(cfg, world, step);
      SessionStays(cfg, world, step);
      Do(step);
    }

    /** While the queue loop runs, these are its variables. */
    ghost predicate InLoop(queued: seq<nat>, active: set<nat>, effective: int, needing: seq<nat>)
      reads this
    {
      && world.main.Looping? && world.queue == Queue(queued, active, effective)
      && world.starts + queued == needing
    }

    lemma LoopIsSound()
      requires Valid() && world.main.Looping?
      ensures |world.queue.active| <= world.queue.effective && !HeldByMain(world.lock)
      ensures world.queue.queued != [] ==>
        1 <= world.queue.effective && world.queue.queued[0] < |world.workers| == |world.store.value.endpoints|
    {
      IsSound();
      if world.queue.queued != [] { assert world.queue.queued[0] in world.queue.queued; }
    }

    /** Starts the endpoint at the head of the queue. */
    method SubmitHead(queued: seq<nat>, active: set<nat>, effective: int, ghost needing: seq<nat>)
      requires Valid() && InLoop(queued, active, effective, needing)
      requires queued != [] && |active| < effective && !world.cancel
      modifies this`world, this`trace
      ensures Valid() && old(trace) <= trace && InLoop(queued[1..], active + {queued[0]}, effective, needing)
      ensures Remaining() < old(Remaining())
    {
      LoopIsSound();
      Act(Submit);
      assert [queued[0]] + queued[1..] == queued;
    }

    /** Starts endpoints from the head of the queue while there is room, and looks at the cancel event before each. */
    method SubmitMore(queued: seq<nat>, active: set<nat>, effective: int, ghost needing: seq<nat>)
      returns (left: seq<nat>, running: set<nat>)
      requires Valid() && InLoop(queued, active, effective, needing)
      modifies this`world, this`trace, this`gap
      ensures Valid() && old(trace) <= trace && InLoop(left, running, effective, needing)
      ensures active <= running && |running| <= effective && Remaining() <= old(Remaining())
      ensures left == [] || |running| == effective || world.cancel
      ensures left == queued || running != {}
    {
      left, running := queued, active;
      while left != [] && |running| < effective && !world.cancel
        invariant Valid() && old(trace) <= trace && InLoop(left, running, effective, needing)
        invariant active <= running && Remaining() <= old(Remaining()) && (left == queued || running != {})
        decreases |left|
      {
        SubmitHead(left, running, effective, needing);
        left, running := left[1..], running + {left[0]};
        Gap();
      }
      LoopIsSound();
    }

    lemma MarkCanBeWritten()
      requires Valid() && world.main.Marking? && HeldByMain(world.lock)
      ensures Enabled(cfg, world, WriteMark(readings(gap)))
    {
      IsSound();
    }

    lemma LockCanBeTaken()
      requires Valid() && world.main.Marking? && world.lock.None?
      ensures Enabled(cfg, world, AcquireMark)
    {
      IsSound();
    }

    /** One half of recording an error: taking the lock with a fresh snapshot, or writing the snapshot. */
    method MarkStep(step: Step)
      requires Valid() && Enabled(cfg, world, step) && OfMark(step) && world.main.Marking?
      modifies this`world, this`trace
      ensures Valid() && old(trace) <= trace && Kept(old(world), world)
      ensures if step.AcquireMark? then world.main == old(world).main && HeldByMain(world.lock) else world.main.Looping?
    {
      MarkLeaves(cfg, world, step);
      Act(step);
    }

    /** Records the error of an endpoint: waits for the state lock, loads, persists. */
    method MarkError()
      requires Valid() && world.main.Marking? && !HeldByMain(world.lock)
      modifies this`world, this`trace, this`gap
      ensures Valid() && old(trace) <= trace && world.main.Looping? && Kept(old(world), world)
    {
      AwaitLock();
      LockCanBeTaken();
      ghost var free := world;
      MarkStep(AcquireMark);
      KeptOn(old(world), free, world);
      ghost var taken := world;
      Gap();
      KeptOn(old(world), taken, world);
      MarkCanBeWritten();
      ghost var marking := world;
      MarkStep(WriteMark(readings(gap)));
      KeptOn(old(world), marking, world);
    }

    /** The outcome of a finished future; the others' outcomes stay what they are. */
    ghost predicate Handled(was: World, i: nat)
      reads this
      requires i < |was.workers| && was.workers[i].Ended?
    {
      && world.main.Looping? && |world.workers| == |was.workers|
      && world.queue == was.queue.(active := was.queue.active - {i}) && world.starts == was.starts
      && world.workers[i] == Reaped(was.workers[i].outcome.Some?)
      && (forall j :: 0 <= j < |was.workers| && j != i && !Live(was.workers[j]) ==> world.workers[j] == was.workers[j])
      && (was.cancel ==> world.cancel)
    }

    /** Takes a finished future out of the active ones: a cancellation sets the event, another error is recorded. */
    method Handle(i: nat) returns (cancelled: bool)
      requires Valid() && world.main.Looping?
      requires i in world.queue.active && i < |world.workers| && world.workers[i].Ended?
      modifies this`world, this`trace, this`gap
      ensures Valid() && old(trace) <= trace && Handled(old(world), i) && Remaining() < old(Remaining())
      ensures cancelled ==> world.cancel
      ensures cancelled <==> old(world).workers[i].outcome.Some? && old(world).workers[i].outcome.value.CancelFault?
    {
      LoopIsSound();
      ActiveAreWorkers();
      var outcome := world.workers[i].outcome;
      Act(Reap(i));
      cancelled := outcome.Some? && outcome.value.CancelFault?;
      if world.main.Marking? {
        MarkError();
      }
    }

    lemma ActiveAreWorkers()
      requires Valid()
      ensures |world.workers| == |world.store.value.endpoints|
    {
      IsSound();
    }

    /** The futures still to be handled are active and done. */
    ghost predicate ToHandle(rest: set<nat>)
      reads this
    {
      rest <= world.queue.active && forall i :: i in rest ==> i < |world.workers| && world.workers[i].Ended?
    }

    /** Handles one of the finished futures. */
    method HandleOne(i: nat, queued: seq<nat>, active: set<nat>, effective: int, ghost needing: seq<nat>,
                     rest: set<nat>)
      returns (cancelled: bool)
      requires Valid() && InLoop(queued, active, effective, needing) && ToHandle(rest) && i in rest
      modifies this`world, this`trace, this`gap
      ensures Valid() && old(trace) <= trace && InLoop(queued, active - {i}, effective, needing) && ToHandle(rest - {i})
      ensures Remaining() < old(Remaining()) && (cancelled || old(world).cancel ==> world.cancel)
    {
      cancelled := Handle(i);
    }

    /** Handles every finished future, whatever the outcomes. */
    method HandleAll(queued: seq<nat>, active: set<nat>, effective: int, ghost needing: seq<nat>, done: set<nat>)
      returns (cancelled: bool)
      requires Valid() && InLoop(queued, active, effective, needing) && ToHandle(done)
      modifies this`world, this`trace, this`gap
      ensures Valid() && old(trace) <= trace && InLoop(queued, active - done, effective, needing)
      ensures Remaining() <= old(Remaining()) && (done != {} ==> Remaining() < old(Remaining()))
      ensures cancelled ==> world.cancel
    {
      var rest, running := done, active;
      cancelled := false;
      while exists i :: i in rest
        invariant Valid() && old(trace) <= trace && InLoop(queued, running, effective, needing)
        invariant ToHandle(rest) && rest <= done && running == active - (done - rest) && (cancelled ==> world.cancel)
        invariant if rest == done then Remaining() <= old(Remaining()) else Remaining() < old(Remaining())
        decreases rest
      {
        var i :| i in rest;
        var one := HandleOne(i, queued, running, effective, needing, rest);
        cancelled := cancelled || one;
        rest, running := rest - {i}, running - {i};
      }
      assert rest == {} && done - rest == done;
    }

    /** What a turn of the queue loop does after its look at the event: start more, wait for one, handle those done. */
    method StartAndHandle(queued: seq<nat>, active: set<nat>, effective: int, ghost needing: seq<nat>)
      returns (left: seq<nat>, running: set<nat>, stop: bool)
      requires Valid() && InLoop(queued, active, effective, needing) && (queued != [] || active != {})
      modifies this`world, this`trace, this`gap
      ensures Valid() && old(trace) <= trace && InLoop(left, running, effective, needing)
      ensures if stop then world.cancel else Remaining() < old(Remaining())
    {
      left, running := SubmitMore(queued, active, effective, needing);
      if running == {} {
        LoopIsSound();
        return left, running, true;
      }
      var done := AwaitOne(running);
      stop := HandleAll(left, running, effective, needing, done);
      running := running - done;
    }

    /** The queue loop: it starts every endpoint in the order of the queue unless it finds the event set, and handles
        every outcome before it starts more.  It always terminates. */
    method RunQueue(needing: seq<nat>)
      requires Valid() && world.main.Looping? && needing != []
      requires needing == world.queue.queued && world.queue.active == {} && world.starts == []
      modifies this`world, this`trace, this`gap
      ensures Valid() && old(trace) <= trace && world.main.Draining?
      ensures world.starts + world.queue.queued == needing
      ensures !world.cancel ==> world.starts == needing && AllReaped(needing)
    {
      LimitsHold();
      var effective, queued, active := world.queue.effective, needing, {};
      queued, active := RunTurns(needing, effective);
      LeaveLoop(queued, active, effective, needing);
      if !world.cancel {
        EveryoneIsReaped(needing);
      }
    }

    /** One turn of the queue loop; it stops the loop only with the event set. */
    method Turn(queued: seq<nat>, active: set<nat>, effective: int, ghost needing: seq<nat>)
      returns (left: seq<nat>, running: set<nat>, stop: bool)
      requires Valid() && InLoop(queued, active, effective, needing) && (queued != [] || active != {}) && effective >= 0
      modifies this`world, this`trace, this`gap
      ensures Valid() && old(trace) <= trace && InLoop(left, running, effective, needing)
      ensures if stop then world.cancel else Remaining() < old(Remaining())
    {
      Gap();
      if world.cancel {
        return queued, active, true;
      }
      left, running, stop := StartAndHandle(queued, active, effective, needing);
    }

    method RunTurns(needing: seq<nat>, effective: int) returns (queued: seq<nat>, active: set<nat>)
      requires Valid() && InLoop(needing, {}, effective, needing) && effective >= 0
      modifies this`world, this`trace, this`gap
      ensures Valid() && old(trace) <= trace && InLoop(queued, active, effective, needing)
      ensures world.cancel || (queued == [] && active == {})
    {
      queued, active := needing, {};
      var stop := false;
      while !stop && (queued != [] || active != {})
        invariant Valid() && old(trace) <= trace && InLoop(queued, active, effective, needing)
        invariant stop ==> world.cancel
        decreases !stop, Remaining()
      {
        queued, active, stop := Turn(queued, active, effective, needing);
      }
    }

    /** In every state on the way the scheduler is within its bounds. */
    ghost predicate BoundsKept()
      reads this
      requires Valid()
    {
      forall k :: 0 <= k <= |trace| ==> Legal(cfg, origin, trace[..k]) && InBounds(Execute(cfg, origin, trace[..k]))
    }

    lemma BoundsHold()
      requires Valid()
      ensures BoundsKept()
    {
      forall k | 0 <= k <= |trace|
        ensures Legal(cfg, origin, trace[..k]) && InBounds(Execute(cfg, origin, trace[..k]))
      {
        PrefixIsLegal(cfg, origin, trace, k);
        RunsJoin(cfg, EMPTY_WORLD, before, trace[..k]);
        SchedulerBounds(cfg, before + trace[..k]);
      }
    }

    /** The coordinator has handled the outcome of each of these. */
    ghost predicate AllReaped(needing: seq<nat>)
      reads this
    {
      forall i :: i in needing ==> i < |world.workers| && world.workers[i].Reaped?
    }

    lemma EveryoneIsReaped(needing: seq<nat>)
      requires Valid() && world.main.Draining? && world.queue.active == {} && world.starts == needing
      ensures AllReaped(needing)
    {
      IsSound();
      forall i | i in needing ensures i < |world.workers| && world.workers[i].Reaped? {
        assert i in world.starts && i !in world.queue.active;
      }
    }

    lemma LimitsHold()
      requires Valid() && world.main.Looping?
      ensures world.queue.queued != [] ==> 1 <= world.queue.effective
    {
      IsSound();
    }

    /** Out of the loop: the event is set, or nothing is queued or active. */
    method LeaveLoop(queued: seq<nat>, active: set<nat>, effective: int, ghost needing: seq<nat>)
      requires Valid() && InLoop(queued, active, effective, needing) && (world.cancel || (queued == [] && active == {}))
      modifies this`world, this`trace
      ensures Valid() && old(trace) <= trace && world.main.Draining?
      ensures world.starts + world.queue.queued == needing
      ensures !world.cancel ==> world.starts == needing && world.queue.active == {}
      ensures Remaining() < old(Remaining())
    {
      ActiveAreWorkers();
      Act(Break);
    }

    // ---------- The end of a resume ----------

    lemma DrainIsSound()
      requires Valid() && (world.main.Draining? || world.main.Closing? || world.main.Deciding?)
      ensures !HeldByMain(world.lock) && |world.workers| == |world.store.value.endpoints|
    {
      IsSound();
    }

    /** Cancels the futures that have not started yet. */
    method CancelFutures()
      requires Valid() && world.main.Draining? && world.cancel
      modifies this`world, this`trace, this`gap
      ensures Valid() && old(trace) <= trace && world.main.Draining? && Remaining() <= old(Remaining())
      ensures forall i :: 0 <= i < |world.workers| ==> !world.workers[i].Submitted?
    {
      while exists i :: 0 <= i < |world.workers| && world.workers[i].Submitted?
        invariant Valid() && old(trace) <= trace && world.main.Draining? && world.cancel
        invariant Remaining() <= old(Remaining())
        decreases Remaining()
      {
        var i :| 0 <= i < |world.workers| && world.workers[i].Submitted?;
        DrainIsSound();
        Act(Withdraw(i));
        Gap();
      }
    }

    /** The others take their turns, and if somebody is still live, somebody goes on. */
    method DrainTurn()
      requires Valid() && world.main.Draining?
      modifies this`world, this`trace, this`gap
      ensures Valid() && old(trace) <= trace && world.main.Draining? && Remaining() <= old(Remaining())
      ensures !NoneLive(world.workers) ==> Remaining() < old(Remaining())
    {
      Gap();
      if !NoneLive(world.workers) {
        DrainIsSound();
        WorkerSteps();
      }
    }

    /** The shutdown of the pool: it waits for every worker, and when the event is set it cancels the futures first. */
    method Shutdown()
      requires Valid() && world.main.Draining?
      modifies this`world, this`trace, this`gap
      ensures Valid() && old(trace) <= trace && world.main.Closing?
    {
      Gap();
      if world.cancel {
        CancelFutures();
      }
      while !NoneLive(world.workers)
        invariant Valid() && old(trace) <= trace && world.main.Draining?
        decreases Remaining(), !NoneLive(world.workers)
      {
        DrainTurn();
      }
      DrainIsSound();
      Act(Drained);
    }

    /** The step that ends a resume. */
    method End(step: Step)
      requires Valid() && Enabled(cfg, world, step) && !world.main.Down? && EndsResume(step)
      modifies this`world, this`trace
      ensures Valid() && old(trace) <= trace && world.main.Down?
      ensures Concluded(world.store.value, CancelText(step.CancelledBefore?), step.now)
    {
      WillConclude(step);
      Act(step);
    }

    lemma WillConclude(step: Step)
      requires Valid() && Enabled(cfg, world, step) && EndsResume(step)
      ensures Continues(step) && !OfOthers(step)
      ensures var after := Apply(cfg, world, step);
        && after.store.Some? && after.main.Down?
        && Concluded(after.store.value, CancelText(step.CancelledBefore?), step.now)
    {
      IsSound();
      LastStepConcludes(cfg, world, step);
    }

    /** The verdict; nobody looks at the cancel event any more. */
    method Decide()
      requires Valid() && world.main.Deciding?
      modifies this`world, this`trace, this`gap
      ensures Valid() && old(trace) <= trace && world.main.Down?
      ensures Concluded(world.store.value, CancelText(false), readings(gap))
    {
      Gap();
      DrainIsSound();
      End(Finalize(readings(gap)));
    }

    /** The last look at the cancel event, and the end it decides. */
    method Finish()
      requires Valid() && world.main.Closing?
      modifies this`world, this`trace, this`gap
      ensures Valid() && old(trace) <= trace && world.main.Down?
      ensures Concluded(world.store.value, CancelText(false), readings(gap))
    {
      Gap();
      DrainIsSound();
      if world.cancel {
        End(CloseCancelled(readings(gap)));
      } else {
        Act(LastLook);
        Decide();
      }
    }

    lemma LoadedIsSound()
      requires Valid() && (world.main.Loaded? || world.main.Admitted?)
      ensures world.main.checkpoint == world.store.value && |world.workers| == |world.store.value.endpoints|
    {
      IsSound();
    }

    /** The first look at the cancel event, then RUNNING with its queue, or with nothing left to do. */
    method Begin()
      requires Valid() && world.main.Loaded?
      modifies this`world, this`trace, this`gap
      ensures Valid() && old(trace) <= trace
      ensures world.main.Down? ==> Concluded(world.store.value, CancelText(true), readings(gap))
      ensures world.main.Down? || world.main.Deciding?
              || (world.main.Looping? && world.queue.queued != [] && world.queue.active == {} && world.starts == [])
    {
      Gap();
      LoadedIsSound();
      if world.cancel {
        End(CancelledBefore(readings(gap)));
      } else {
        Act(Admit);
        SetRunning();
      }
    }

    /** RUNNING is persisted, and the queue holds the endpoints that need work. */
    method SetRunning()
      requires Valid() && world.main.Admitted?
      modifies this`world, this`trace, this`gap
      ensures Valid() && old(trace) <= trace
      ensures if world.main.Looping? then world.queue.queued != [] && world.queue.active == {} && world.starts == []
              else world.main.Deciding?
    {
      Gap();
      LoadedIsSound();
      Act(ToRunning(readings(gap)));
    }

    /** A resume, from the loaded session to its end, whatever goes on around it.  It terminates; it ends CANCELLED if
        and only if the event is set before its first look at it or, with endpoints to scan, before its last one, and
        else FAILED if and only if a worker raised, or COMPLETED. */
    method Resume()
      requires Valid() && world.main.Loaded? && trace == []
      modifies this`world, this`trace, this`gap
      ensures Valid() && world.main.Down? && EndsAs(world, CancelledInTime(cfg, origin, trace))
      ensures BoundsKept()
      ensures exists before :: Concluded(world.store.value, CancelText(before), readings(gap))
    {
      Begin();
      ghost var before := world.main.Down?;
      if world.main.Looping? {
        RunQueue(world.queue.queued);
        Shutdown();
        Finish();
      } else if world.main.Deciding? {
        Decide();
      }
      IsSound();
      assert Concluded(world.store.value, CancelText(before), readings(gap));
      ResumeEndsExactly(cfg, origin, trace);
      BoundsHold();
    }
  }
}
