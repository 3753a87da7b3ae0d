/** The single-target runner over the v2 store: every step of a run is a store call that is accepted, and the tables
    always load as the checkpoint the run is at. */
module SingleRunnerStore {
  import opened Common
  import opened Session
  import opened StoreV2Tables
  import opened StoreV2Runs
  import opened RunnerCalls
  import R = SingleRunner
  import ScanPhase

  /** The store call a step makes, if it makes one that commits. */
  function CallOf(limit: int, w: R.World, step: R.Step): Option<Op>
    requires R.Enabled(limit, w, step)
  {
    if step.Commit? then Some(Append(R.Endpoint(w).identity, w.proc.phase.inflight, step.now, Running, None))
    else if step.RecordBanner? then Some(CompleteBanner(R.Endpoint(w).identity, step.port, step.banner, step.now))
    else if R.Durable(step) then Some(Persist(R.Apply(limit, w, step).store.value))
    else None
  }

  lemma CommitSucceeds(limit: int, w: R.World, step: R.Step, t: Tables)
    requires R.Inv(limit, w) && R.Enabled(limit, w, step) && step.Commit? && Holds(SingleTarget, t, w.store)
    ensures Succeeds(SingleTarget, limit, t, CallOf(limit, w, step).value, R.Apply(limit, w, step).store)
  {
    ScanPhase.BatchIsAcceptable(R.Endpoint(w), w.proc.phase, limit);
    AppendSucceeds(SingleTarget, limit, t, w.store.value, 0, w.proc.phase.inflight, step.now);
  }

  lemma RecordSucceeds(limit: int, w: R.World, step: R.Step, t: Tables)
    requires R.Inv(limit, w) && R.Enabled(limit, w, step) && step.RecordBanner? && Holds(SingleTarget, t, w.store)
    ensures Succeeds(SingleTarget, limit, t, CallOf(limit, w, step).value, R.Apply(limit, w, step).store)
  {
    BannerSucceeds(SingleTarget, limit, t, w.store.value, 0, step.port, step.banner, step.now);
  }

  lemma OtherSucceeds(limit: int, w: R.World, step: R.Step, t: Tables)
    requires R.Inv(limit, w) && R.Enabled(limit, w, step) && limit >= 1 && Holds(SingleTarget, t, w.store)
    requires R.Durable(step) && !step.Commit? && !step.RecordBanner?
    ensures Succeeds(SingleTarget, limit, t, CallOf(limit, w, step).value, R.Apply(limit, w, step).store)
  {
    R.StepKeepsInv(limit, w, step);
    PersistSucceeds(SingleTarget, limit, t, w.store, R.Apply(limit, w, step).store.value);
  }

  /** Every step of the runner is a call the v2 store accepts, or no call at all. */
  lemma StepSucceeds(limit: int, w: R.World, step: R.Step, t: Tables)
    requires R.Inv(limit, w) && R.Enabled(limit, w, step) && limit >= 1 && Holds(SingleTarget, t, w.store)
    ensures match CallOf(limit, w, step)
      case None => R.Apply(limit, w, step).store == w.store
      case Some(op) => Succeeds(SingleTarget, limit, t, op, R.Apply(limit, w, step).store)
  {
    if step.Commit? {
      CommitSucceeds(limit, w, step, t);
    } else if step.RecordBanner? {
      RecordSucceeds(limit, w, step, t);
    } else if R.Durable(step) {
      OtherSucceeds(limit, w, step, t);
    } else if R.InScan(step) {
      R.ScanStep(limit, w, step);
    } else {
      R.ControlStep(limit, w, step);
    }
  }

  /** The store calls of a run, in order. */
  function Calls(limit: int, w: R.World, steps: seq<R.Step>): seq<Op>
    requires R.Legal(limit, w, steps)
    decreases |steps|
  {
    if steps == [] then []
    else
      (match CallOf(limit, w, steps[0]) case None => [] case Some(op) => [op])
      + Calls(limit, R.Apply(limit, w, steps[0]), steps[1..])
  }

  /** Refinement over whole runs: the tables after the calls of a run load as the checkpoint the run ends with. */
  lemma {:induction false} RunHolds(limit: int, w: R.World, steps: seq<R.Step>, t: Tables)
    requires R.Inv(limit, w) && R.Legal(limit, w, steps) && limit >= 1 && Holds(SingleTarget, t, w.store)
    ensures Holds(SingleTarget, Run(SingleTarget, limit, t, Calls(limit, w, steps)), R.Execute(limit, w, steps).store)
    decreases |steps|
  {
    if steps != [] {
      var next := R.Apply(limit, w, steps[0]);
      R.StepKeepsInv(limit, w, steps[0]);
      StepSucceeds(limit, w, steps[0], t);
      match CallOf(limit, w, steps[0]) {
        case None =>
          RunHolds(limit, next, steps[1..], t);
          assert Calls(limit, w, steps) == Calls(limit, next, steps[1..]);
        case Some(op) =>
          RunHolds(limit, next, steps[1..], Step(SingleTarget, limit, t, op));
          RunFromFirst(SingleTarget, limit, t, op, Calls(limit, next, steps[1..]));
      }
    }
  }

  /** For every run from an empty directory, with any crashes and resumes: what `load` returns is exactly the
      checkpoint of the run, however the results were batched. */
  lemma RunsLoadTheirCheckpoint(limit: int, steps: seq<R.Step>)
    requires R.Legal(limit, R.EMPTY_WORLD, steps) && limit >= 1
    ensures var t := Run(SingleTarget, limit, EMPTY_TABLES, Calls(limit, R.EMPTY_WORLD, steps));
            var store := R.Execute(limit, R.EMPTY_WORLD, steps).store;
      LoadTx(SingleTarget, t) == if store.Some? then Ok(store.value) else Err(NotFound)
  {
    RunHolds(limit, R.EMPTY_WORLD, steps, EMPTY_TABLES);
    HoldsLoads(SingleTarget, Run(SingleTarget, limit, EMPTY_TABLES, Calls(limit, R.EMPTY_WORLD, steps)),
               R.Execute(limit, R.EMPTY_WORLD, steps).store);
  }
}
