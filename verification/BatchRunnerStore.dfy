/** The batch runner over the v2 store: whatever the interleaving of workers and flushers, every store call is
    accepted, and the tables always load as the checkpoint the run is at. */
module BatchRunnerStore {
  import opened Common
  import opened Session
  import opened StoreV2Tables
  import opened StoreV2Runs
  import opened RunnerCalls
  import B = BatchRunner
  import H = BatchHistory
  import S = BatchSafety
  import ScanPhase

  predicate Writes(step: B.Step) {
    step.Create? || step.CancelledBefore? || step.ToRunning? || step.WriteMark? || step.CloseCancelled?
    || step.Finalize? || step.Write?
  }

  /** The store call of a step.  The unreachable branch of the verdict would be several calls; it has none here. */
  function CallOf(cfg: B.Config, w: B.World, step: B.Step): Option<Op>
    requires B.Enabled(cfg, w, step)
  {
    if step.Write? then
      var id, worker := w.store.value.endpoints[step.endpoint].identity, w.workers[step.endpoint];
      Some(if worker.Scans? then Append(id, worker.phase.inflight, step.now, Running, None)
           else CompleteBanner(id, worker.grabbed.value.port, worker.grabbed.value.banner, step.now))
    else if Writes(step) then Some(Persist(B.Apply(cfg, w, step).store.value))
    else None
  }

  lemma WriteSucceeds(cfg: B.Config, w: B.World, i: nat, now: int, t: Tables)
    requires S.Inv(cfg, w) && cfg.incremental && w.store.Some? && Holds(MultiTarget, t, w.store)
    requires i < |w.workers| && B.Wants(w.workers[i]) && w.store.value.updatedAt <= now
    ensures var c, worker := w.store.value, w.workers[i];
      Succeeds(MultiTarget, cfg.limit, t,
               if worker.Scans? then Append(c.endpoints[i].identity, worker.phase.inflight, now, Running, None)
               else CompleteBanner(c.endpoints[i].identity, worker.grabbed.value.port, worker.grabbed.value.banner,
                                   now),
               Some(B.Written(cfg, c, i, worker, now)))
  {
    var c, worker := w.store.value, w.workers[i];
    assert B.Live(worker) && S.InResume(w.main);
    assert B.WorkerInv(cfg, c.plan, c.endpoints[i], worker);
    if worker.Scans? {
      ScanPhase.BatchIsAcceptable(c.endpoints[i], worker.phase, cfg.limit);
      AppendSucceeds(MultiTarget, cfg.limit, t, c, i, worker.phase.inflight, now);
    } else {
      BannerSucceeds(MultiTarget, cfg.limit, t, c, i, worker.grabbed.value.port, worker.grabbed.value.banner, now);
    }
  }

  lemma WriteCallSucceeds(cfg: B.Config, w: B.World, step: B.Step, t: Tables)
    requires S.Inv(cfg, w) && B.Enabled(cfg, w, step) && step.Write? && cfg.incremental
    requires Holds(MultiTarget, t, w.store)
    ensures Succeeds(MultiTarget, cfg.limit, t, CallOf(cfg, w, step).value, B.Apply(cfg, w, step).store)
  {
    WriteSucceeds(cfg, w, step.endpoint, step.now, t);
  }

  /** Every whole checkpoint the coordinator persists is the next one: its sequence is one higher. */
  lemma PersistsNext(cfg: B.Config, w: B.World, step: B.Step)
    requires S.Inv(cfg, w) && B.Enabled(cfg, w, step) && Writes(step) && !step.Write? && w.store.Some?
    ensures B.Apply(cfg, w, step).store.value.sequence == w.store.value.sequence + 1
  {
    if step.Finalize? {
      S.VerdictMoves(cfg, w.store.value, w, step.now);
    }
  }

  lemma PersistCallSucceeds(cfg: B.Config, w: B.World, step: B.Step, t: Tables)
    requires S.Inv(cfg, w) && B.Enabled(cfg, w, step) && Writes(step) && !step.Write?
    requires Holds(MultiTarget, t, w.store)
    ensures Succeeds(MultiTarget, cfg.limit, t, CallOf(cfg, w, step).value, B.Apply(cfg, w, step).store)
  {
    S.StepKeepsInv(cfg, w, step);
    if w.store.Some? { PersistsNext(cfg, w, step); }
    PersistSucceeds(MultiTarget, cfg.limit, t, w.store, B.Apply(cfg, w, step).store.value);
  }

  lemma QuietSteps(cfg: B.Config, w: B.World, step: B.Step)
    requires B.Enabled(cfg, w, step) && !Writes(step)
    ensures B.Apply(cfg, w, step).store == w.store
  {
  }

  /** Every step of the batch runner is a call the v2 store accepts, or no call at all. */
  lemma StepSucceeds(cfg: B.Config, w: B.World, step: B.Step, t: Tables)
    requires S.Inv(cfg, w) && B.Enabled(cfg, w, step) && cfg.incremental && Holds(MultiTarget, t, w.store)
    ensures match CallOf(cfg, w, step)
      case None => B.Apply(cfg, w, step).store == w.store
      case Some(op) => Succeeds(MultiTarget, cfg.limit, t, op, B.Apply(cfg, w, step).store)
  {
    if step.Write? {
      WriteCallSucceeds(cfg, w, step, t);
    } else if Writes(step) {
      PersistCallSucceeds(cfg, w, step, t);
    } else {
      QuietSteps(cfg, w, step);
    }
  }

  function Calls(cfg: B.Config, w: B.World, steps: seq<B.Step>): seq<Op>
    requires S.Legal(cfg, w, steps)
    decreases |steps|
  {
    if steps == [] then []
    else
      (match CallOf(cfg, w, steps[0]) case None => [] case Some(op) => [op])
      + Calls(cfg, B.Apply(cfg, w, steps[0]), steps[1..])
  }

  /** The tables after the store call of a step. */
  function AfterCall(cfg: B.Config, call: Option<Op>, t: Tables): Tables {
    if call.Some? then Step(MultiTarget, cfg.limit, t, call.value) else t
  }

  lemma StepHolds(cfg: B.Config, w: B.World, step: B.Step, t: Tables)
    requires S.Inv(cfg, w) && B.Enabled(cfg, w, step) && cfg.incremental && Holds(MultiTarget, t, w.store)
    ensures S.Inv(cfg, B.Apply(cfg, w, step))
    ensures Holds(MultiTarget, AfterCall(cfg, CallOf(cfg, w, step), t), B.Apply(cfg, w, step).store)
  {
    S.StepKeepsInv(cfg, w, step);
    StepSucceeds(cfg, w, step, t);
  }

  lemma CallFirst(cfg: B.Config, call: Option<Op>, rest: seq<Op>, t: Tables)
    ensures Run(MultiTarget, cfg.limit, t, (match call case None => [] case Some(op) => [op]) + rest)
            == Run(MultiTarget, cfg.limit, AfterCall(cfg, call, t), rest)
  {
    match call {
      case None => assert [] + rest == rest;
      case Some(op) => RunFromFirst(MultiTarget, cfg.limit, t, op, rest);
    }
  }

  lemma {:induction false} RunHolds(cfg: B.Config, w: B.World, steps: seq<B.Step>, t: Tables)
    requires S.Inv(cfg, w) && S.Legal(cfg, w, steps) && cfg.incremental && Holds(MultiTarget, t, w.store)
    ensures Holds(MultiTarget, Run(MultiTarget, cfg.limit, t, Calls(cfg, w, steps)), S.Execute(cfg, w, steps).store)
    decreases |steps|
  {
    if steps != [] {
      var next := B.Apply(cfg, w, steps[0]);
      var call := CallOf(cfg, w, steps[0]);
      StepHolds(cfg, w, steps[0], t);
      RunHolds(cfg, next, steps[1..], AfterCall(cfg, call, t));
      CallFirst(cfg, call, Calls(cfg, next, steps[1..]), t);
    }
  }

  /** For every interleaving of workers, flushers and coordinator over any number of resumes: the database loads as
      the checkpoint of the run, so each endpoint loads as the fold of its own committed steps. */
  lemma RunsLoadEveryEndpoint(cfg: B.Config, steps: seq<B.Step>)
    requires B.ValidConfig(cfg) && cfg.incremental && S.Legal(cfg, B.EMPTY_WORLD, steps)
    ensures var t := Run(MultiTarget, cfg.limit, EMPTY_TABLES, Calls(cfg, B.EMPTY_WORLD, steps));
            var w := S.Execute(cfg, B.EMPTY_WORLD, steps);
      && LoadTx(MultiTarget, t) == (if w.store.Some? then Ok(w.store.value) else Err(NotFound))
      && (LoadTx(MultiTarget, t).Ok? ==>
            var c := LoadTx(MultiTarget, t).value;
            && c.sequence == |w.log| && |c.endpoints| == |c.plan.targets|
            && forall i :: 0 <= i < |c.endpoints| ==>
                 c.endpoints[i] == H.Fold(i, H.Fresh(c.plan, i), H.Own(i, w.log)))
  {
    RunHolds(cfg, B.EMPTY_WORLD, steps, EMPTY_TABLES);
    S.NoLostUpdates(cfg, steps);
    HoldsLoads(MultiTarget, Run(MultiTarget, cfg.limit, EMPTY_TABLES, Calls(cfg, B.EMPTY_WORLD, steps)),
               S.Execute(cfg, B.EMPTY_WORLD, steps).store);
  }
}
