/** What the steps of the single-target runner put into the session, field by field, and where it comes from. */
module SingleRunnerContents {
  import opened Common
  import opened Session
  import opened SessionChanges
  import opened SingleRunner
  import ScanPhase

  /** The session after a durable step; no other step changes it. */
  predicate Becomes(w: World, step: Step, after: Option<Checkpoint>) {
    if step.Create? then after.Some? && NewSession(after.value, step.sessionId, step.plan, step.now)
    else if w.store.None? || !Durable(step) then after == w.store
    else
      && after.Some? && |w.store.value.endpoints| == |after.value.endpoints| == 1
      && Succeeds(w.proc, step, w.store.value, after.value)
  }

  /** The successor of the session `c` in a durable step of this process. */
  predicate Succeeds(proc: Proc, step: Step, c: Checkpoint, d: Checkpoint)
    requires |c.endpoints| == |d.endpoints| == 1
  {
    var p, q := c.endpoints[0], d.endpoints[0];
    match step
    case ToRunning(now) => Stamped(c, d, Running, None, 1, now) && OnlyError(p, q, None)
    case Commit(now) =>
      && proc.Scanning? && Stamped(c, d, Running, None, |proc.phase.inflight|, now)
      && ResultsAdded(p, q, proc.phase.inflight)
    case RecordBanner(port, banner, now) => Stamped(c, d, Running, None, 1, now) && BannerAdded(p, q, port, banner)
    case PersistCompleted(now) => Stamped(c, d, Completed, None, 1, now) && q == p
    case PersistFault(now) =>
      && proc.Failing?
      && (match proc.fault
          case CancelFault(text) => Stamped(c, d, Cancelled, Some(text), 1, now) && q == p
          case ErrorFault(text) => Stamped(c, d, Failed, Some(text), 1, now) && OnlyError(p, q, Some(text)))
    case _ => false
  }

  lemma CommitContents(limit: int, w: World, step: Step)
    requires Inv(limit, w) && Enabled(limit, w, step) && step.Commit?
    ensures Becomes(w, step, Apply(limit, w, step).store)
  {
    ScanPhase.BatchIsAcceptable(Endpoint(w), w.proc.phase, limit);
    RecordedAtContents(w.store.value, 0, w.proc.phase.inflight, step.now);
  }

  lemma BannerContents(limit: int, w: World, step: Step)
    requires Inv(limit, w) && Enabled(limit, w, step) && step.RecordBanner?
    ensures Becomes(w, step, Apply(limit, w, step).store)
  {
    BanneredAtContents(w.store.value, 0, step.port, step.banner, step.now);
  }

  lemma WholeContents(limit: int, w: World, step: Step)
    requires Inv(limit, w) && Enabled(limit, w, step) && Durable(step)
    requires !step.Commit? && !step.RecordBanner?
    ensures Becomes(w, step, Apply(limit, w, step).store)
  {
    if step.Create? {
      CreatedIsValid(step.sessionId, step.plan, step.now);
    }
  }

  lemma QuietContents(limit: int, w: World, step: Step)
    requires Enabled(limit, w, step) && !Durable(step)
    ensures Apply(limit, w, step).store == w.store
  {
  }

  /** Every step makes of the session exactly what it should. */
  lemma StepContents(limit: int, w: World, step: Step)
    requires Inv(limit, w) && Enabled(limit, w, step)
    ensures Becomes(w, step, Apply(limit, w, step).store)
  {
    if step.Commit? {
      CommitContents(limit, w, step);
    } else if step.RecordBanner? {
      BannerContents(limit, w, step);
    } else if Durable(step) {
      WholeContents(limit, w, step);
    } else {
      QuietContents(limit, w, step);
    }
  }

  // ---------- Where it comes from ----------

  predicate WasReported(steps: seq<Step>, r: PortResult) { Accept(r) in steps }

  predicate WasGrabbed(steps: seq<Step>, port: int, banner: Option<string>) {
    exists k :: 0 <= k < |steps| && steps[k].RecordBanner? && steps[k].port == port && steps[k].banner == banner
  }

  /** Whatever is in the history, or on its way there, was reported or grabbed as it is. */
  predicate Sourced(w: World, steps: seq<Step>) {
    && (forall k :: 0 <= k < |w.log| ==>
          && (w.log[k].Confirmed? ==> WasReported(steps, w.log[k].result))
          && (w.log[k].Bannered? ==> WasGrabbed(steps, w.log[k].port, w.log[k].banner)))
    && (w.proc.Scanning? ==>
          forall r :: r in ScanPhase.Unconfirmed(w.proc.phase) ==> WasReported(steps, r))
  }

  lemma SourcedLonger(w: World, steps: seq<Step>, step: Step)
    requires Sourced(w, steps)
    ensures Sourced(w, steps + [step])
  {
    forall k | 0 <= k < |w.log| && w.log[k].Bannered?
      ensures WasGrabbed(steps + [step], w.log[k].port, w.log[k].banner)
    {
      var j :| 0 <= j < |steps| && steps[j].RecordBanner? && steps[j].port == w.log[k].port
               && steps[j].banner == w.log[k].banner;
      assert (steps + [step])[j] == steps[j];
    }
  }

  lemma AcceptSourced(limit: int, w: World, step: Step, steps: seq<Step>)
    requires Enabled(limit, w, step) && step.Accept? && Sourced(w, steps) && step in steps
    ensures Sourced(Apply(limit, w, step), steps)
  {
    var ph, next := w.proc.phase, ScanPhase.Accept(w.proc.phase, step.result, limit);
    forall r | r in ScanPhase.Unconfirmed(next) ensures WasReported(steps, r) {
      assert r in ScanPhase.Unconfirmed(ph) || r == step.result;
    }
  }

  lemma CommitSourced(limit: int, w: World, step: Step, steps: seq<Step>)
    requires Enabled(limit, w, step) && step.Commit? && Sourced(w, steps)
    ensures Sourced(Apply(limit, w, step), steps)
  {
    var after := Apply(limit, w, step);
    forall k | |w.log| <= k < |after.log| ensures after.log[k].Confirmed? && WasReported(steps, after.log[k].result) {
      var r := w.proc.phase.inflight[k - |w.log|];
      assert after.log[k] == Confirmed(r) && r in ScanPhase.Unconfirmed(w.proc.phase);
    }
  }

  lemma BannerSourced(limit: int, w: World, step: Step, steps: seq<Step>)
    requires Enabled(limit, w, step) && step.RecordBanner? && Sourced(w, steps) && step in steps
    ensures Sourced(Apply(limit, w, step), steps)
  {
    assert WasGrabbed(steps, step.port, step.banner);
  }

  lemma OtherSourced(limit: int, w: World, step: Step, steps: seq<Step>)
    requires Enabled(limit, w, step) && Sourced(w, steps)
    requires !step.Accept? && !step.Commit? && !step.RecordBanner?
    ensures Sourced(Apply(limit, w, step), steps)
  {
    var after := Apply(limit, w, step);
    assert forall k :: 0 <= k < |w.log| ==> after.log[k] == w.log[k];
  }

  lemma SourcedStep(limit: int, w: World, step: Step, steps: seq<Step>)
    requires Enabled(limit, w, step) && Sourced(w, steps)
    ensures Sourced(Apply(limit, w, step), steps + [step])
  {
    SourcedLonger(w, steps, step);
    if step.Accept? {
      AcceptSourced(limit, w, step, steps + [step]);
    } else if step.Commit? {
      CommitSourced(limit, w, step, steps + [step]);
    } else if step.RecordBanner? {
      BannerSourced(limit, w, step, steps + [step]);
    } else {
      OtherSourced(limit, w, step, steps + [step]);
    }
  }

  lemma {:induction false} RunIsSourced(limit: int, steps: seq<Step>)
    requires Legal(limit, EMPTY_WORLD, steps)
    ensures Sourced(Execute(limit, EMPTY_WORLD, steps), steps)
  {
    if steps != [] {
      var n := |steps| - 1;
      RunSplits(limit, EMPTY_WORLD, steps);
      RunIsSourced(limit, steps[..n]);
      SourcedStep(limit, Execute(limit, EMPTY_WORLD, steps[..n]), steps[n], steps[..n]);
      assert steps[..n] + [steps[n]] == steps;
    }
  }

  /** The confirmed result of a port is one that was reported in the run, but for its banner, and that is one that was
      returned for the port. */
  ghost predicate AsDelivered(p: Progress, steps: seq<Step>, port: int)
    requires port in p.completed
  {
    && (exists r :: WasReported(steps, r) && r.port == port
                    && p.completed[port] == r.(banner := p.completed[port].banner)
                    && (port !in p.banners ==> p.completed[port] == r))
    && (port in p.banners ==>
          exists banner :: WasGrabbed(steps, port, banner) && Carries(p.completed[port].banner, banner))
  }

  /** Nothing is invented on the way into the store: over whole runs, with any crashes and resumes, every result and
      every banner in the session is one that the executor has delivered for its port. */
  lemma NothingIsInvented(limit: int, steps: seq<Step>, port: int)
    requires Legal(limit, EMPTY_WORLD, steps) && limit >= 1
    requires var store := Execute(limit, EMPTY_WORLD, steps).store;
      store.Some? && |store.value.endpoints| == 1 && port in store.value.endpoints[0].completed
    ensures AsDelivered(Execute(limit, EMPTY_WORLD, steps).store.value.endpoints[0], steps, port)
  {
    RunsAreSafe(limit, steps);
    RunIsSourced(limit, steps);
    var w := Execute(limit, EMPTY_WORLD, steps);
    var p := w.store.value.endpoints[0];
    assert port in ConfirmedIn(w.log);
    var k :| 0 <= k < |w.log| && w.log[k].Confirmed? && w.log[k].result.port == port;
    assert WasReported(steps, w.log[k].result);
    if port in p.banners {
      assert port in BanneredIn(w.log);
      var j :| 0 <= j < |w.log| && w.log[j].Bannered? && w.log[j].port == port;
      assert WasGrabbed(steps, port, w.log[j].banner);
    }
  }
}
