/** Where the contents of a batch session come from: over whole runs every result, banner and error in it is one that
    was delivered or raised for its own endpoint, and none that was confirmed is missing. */
module BatchSources {
  import opened Common
  import opened Session
  import opened StoreV2Increments
  import opened SessionChanges
  import opened BatchRunner
  import opened BatchHistory
  import opened BatchSafety
  import opened BatchContents
  import ScanPhase

  predicate WasReported(steps: seq<Step>, i: nat, r: PortResult) { Local(i, Report(r)) in steps }

  predicate WasGrabbed(steps: seq<Step>, i: nat, grab: Grab) { Local(i, GrabBanner(grab)) in steps }

  /** The worker of the endpoint has raised this, by itself or in a store call. */
  predicate WasRaised(steps: seq<Step>, i: nat, fault: ScanPhase.Fault) {
    || Local(i, StartRaises(fault)) in steps || Local(i, ScanFails(fault)) in steps
    || Local(i, BannerRaises(fault)) in steps || WriteFails(i, fault) in steps
  }

  predicate EntrySourced(steps: seq<Step>, e: Entry) {
    match e
    case Confirmed(i, r) => WasReported(steps, i, r)
    case Bannered(i, port, banner) => WasGrabbed(steps, i, Grab(port, banner))
    case Errored(i, text) => WasRaised(steps, i, ScanPhase.ErrorFault(text))
    case _ => true
  }

  /** What the worker carries was delivered to it, or raised by it. */
  predicate WorkerSourced(steps: seq<Step>, i: nat, worker: Worker) {
    match worker
    case Scans(phase, _) => forall r :: r in ScanPhase.Unconfirmed(phase) ==> WasReported(steps, i, r)
    case Banners(_, grabbed) => grabbed.Some? ==> WasGrabbed(steps, i, grabbed.value)
    case Ended(outcome) => outcome.Some? ==> WasRaised(steps, i, outcome.value)
    case _ => true
  }

  predicate AllSourced(steps: seq<Step>, workers: seq<Worker>) {
    forall i :: 0 <= i < |workers| ==> WorkerSourced(steps, i, workers[i])
  }

  predicate LogSourced(steps: seq<Step>, log: seq<Entry>) {
    forall k :: 0 <= k < |log| ==> EntrySourced(steps, log[k])
  }

  predicate Sourced(w: World, steps: seq<Step>) {
    && LogSourced(steps, w.log) && AllSourced(steps, w.workers)
    && (w.main.Marking? ==> WasRaised(steps, w.main.endpoint, ScanPhase.ErrorFault(w.main.text)))
  }

  lemma SourcedLonger(w: World, steps: seq<Step>, step: Step)
    requires Sourced(w, steps)
    ensures Sourced(w, steps + [step])
  {
    forall i | 0 <= i < |w.workers| ensures WorkerSourced(steps + [step], i, w.workers[i]) {
      assert WorkerSourced(steps, i, w.workers[i]);
    }
    forall k | 0 <= k < |w.log| ensures EntrySourced(steps + [step], w.log[k]) {
      assert EntrySourced(steps, w.log[k]);
    }
  }

  lemma ActSourced(cfg: Config, plan: Plan, p: Progress, worker: Worker, act: Act, i: nat, steps: seq<Step>)
    requires CanAct(cfg, p, worker, act) && WorkerSourced(steps, i, worker) && Local(i, act) in steps
    ensures WorkerSourced(steps, i, Acted(cfg, plan, p, worker, act))
  {
    var next := Acted(cfg, plan, p, worker, act);
    if act.Report? {
      forall r | r in ScanPhase.Unconfirmed(next.phase) ensures WasReported(steps, i, r) {
        assert r in ScanPhase.Unconfirmed(worker.phase) || r == act.result;
      }
    } else if next.Scans? && worker.Scans? {
      assert forall r :: r in ScanPhase.Unconfirmed(next.phase) ==> r in ScanPhase.Unconfirmed(worker.phase);
    }
  }

  lemma WorkerStepSourced(w: World, after: World, i: nat, next: Worker, steps: seq<Step>)
    requires Sourced(w, steps) && i < |w.workers| && WorkerSourced(steps, i, next)
    requires after.workers == w.workers[i := next] && after.log == w.log && after.main == w.main
    ensures Sourced(after, steps)
  {
  }

  lemma LocalSourced(cfg: Config, w: World, step: Step, steps: seq<Step>)
    requires Enabled(cfg, w, step) && step.Local? && w.store.Some? && Sourced(w, steps) && step in steps
    ensures Sourced(Apply(cfg, w, step), steps)
  {
    var i, c := step.endpoint, w.store.value;
    ActSourced(cfg, c.plan, c.endpoints[i], w.workers[i], step.act, i, steps);
    WorkerStepSourced(w, Apply(cfg, w, step), i, Acted(cfg, c.plan, c.endpoints[i], w.workers[i], step.act), steps);
  }

  lemma FailureSourced(cfg: Config, w: World, step: Step, steps: seq<Step>)
    requires Enabled(cfg, w, step) && (step.WriteFails? || step.FlusherFails?) && w.store.Some?
    requires Sourced(w, steps) && step in steps
    ensures Sourced(Apply(cfg, w, step), steps)
  {
    var i := step.endpoint;
    var worker := w.workers[i];
    assert WorkerSourced(steps, i, worker);
    var next := Apply(cfg, w, step).workers[i];
    if next.Scans? {
      assert forall r :: r in ScanPhase.Unconfirmed(next.phase) ==> r in ScanPhase.Unconfirmed(worker.phase);
    }
    WorkerStepSourced(w, Apply(cfg, w, step), i, next, steps);
  }

  lemma EntriesSourced(i: nat, worker: Worker, steps: seq<Step>)
    requires Wants(worker) && WorkerSourced(steps, i, worker)
    ensures LogSourced(steps, WrittenEntries(i, worker)) && WorkerSourced(steps, i, WroteWorker(worker))
  {
    if worker.Scans? {
      var batch := worker.phase.inflight;
      forall k | 0 <= k < |batch| ensures EntrySourced(steps, ConfirmedAll(i, batch)[k]) {
        assert batch[k] in ScanPhase.Unconfirmed(worker.phase);
      }
      assert forall r :: r in ScanPhase.Unconfirmed(WroteWorker(worker).phase) ==>
          r in ScanPhase.Unconfirmed(worker.phase);
    }
  }

  lemma WriteSourced(cfg: Config, w: World, step: Step, steps: seq<Step>)
    requires Enabled(cfg, w, step) && step.Write? && w.store.Some? && Sourced(w, steps)
    ensures Sourced(Apply(cfg, w, step), steps)
  {
    var i := step.endpoint;
    EntriesSourced(i, w.workers[i], steps);
    assert Apply(cfg, w, step).log == w.log + WrittenEntries(i, w.workers[i]);
    assert Apply(cfg, w, step).workers == w.workers[i := WroteWorker(w.workers[i])];
  }

  lemma MarkSourced(cfg: Config, w: World, step: Step, steps: seq<Step>)
    requires Enabled(cfg, w, step) && (step.WriteMark? || step.Reap?) && w.store.Some? && Sourced(w, steps)
    ensures Sourced(Apply(cfg, w, step), steps)
  {
    if step.Reap? {
      ReapApplies(cfg, w, step);
      assert WorkerSourced(steps, step.endpoint, w.workers[step.endpoint]);
    } else {
      assert Apply(cfg, w, step).log == w.log + [Errored(w.main.endpoint, w.main.text)];
    }
  }

  lemma FinalizeSourced(cfg: Config, w: World, step: Step, steps: seq<Step>)
    requires Inv(cfg, w) && Enabled(cfg, w, step) && step.Finalize? && w.store.Some? && Sourced(w, steps)
    ensures Sourced(Apply(cfg, w, step), steps)
  {
    var c := w.store.value;
    FinalizeApplies(cfg, w, step);
    PendingBranchUnreachable(cfg, c, w);
    VerdictIsTerminal(c, step.now);
    ClosedSourced(w, Verdict(c, step.now), steps);
  }

  lemma ClosedSourced(w: World, c: Checkpoint, steps: seq<Step>)
    requires Sourced(w, steps)
    ensures Sourced(AfterClose(w, c, [Terminated]), steps)
  {
  }

  predicate Idling(step: Step) {
    !OfWorker(step) && !step.WriteMark? && !step.Reap? && !step.Finalize?
  }

  /** The remaining steps hand nothing to a worker and confirm nothing. */
  lemma IdlingSourced(cfg: Config, w: World, step: Step, steps: seq<Step>)
    requires Enabled(cfg, w, step) && Idling(step) && Sourced(w, steps)
    ensures Sourced(Apply(cfg, w, step), steps)
  {
    var after := Apply(cfg, w, step);
    assert w.log <= after.log;
    assert forall k :: |w.log| <= k < |after.log| ==> after.log[k].Transition? || after.log[k].Terminated?;
    assert forall i :: 0 <= i < |after.workers| ==>
        after.workers[i].Idle? || after.workers[i].Submitted? || after.workers[i].Withdrawn?
        || (i < |w.workers| && after.workers[i] == w.workers[i]);
  }

  lemma SourcedStep(cfg: Config, w: World, step: Step, steps: seq<Step>)
    requires Inv(cfg, w) && Enabled(cfg, w, step) && Sourced(w, steps)
    ensures Sourced(Apply(cfg, w, step), steps + [step])
  {
    var longer := steps + [step];
    SourcedLonger(w, steps, step);
    if Idling(step) || step.Acquire? {
      QuietOrIdling(cfg, w, step, longer);
    } else if step.Local? {
      LocalSourced(cfg, w, step, longer);
    } else if step.WriteFails? || step.FlusherFails? {
      FailureSourced(cfg, w, step, longer);
    } else if step.Write? {
      WriteSourced(cfg, w, step, longer);
    } else if step.Finalize? {
      FinalizeSourced(cfg, w, step, longer);
    } else {
      MarkSourced(cfg, w, step, longer);
    }
  }

  lemma QuietOrIdling(cfg: Config, w: World, step: Step, steps: seq<Step>)
    requires Enabled(cfg, w, step) && (Idling(step) || step.Acquire?) && Sourced(w, steps)
    ensures Sourced(Apply(cfg, w, step), steps)
  {
    if Idling(step) {
      IdlingSourced(cfg, w, step, steps);
    }
  }

  // ---------- What has been confirmed is there ----------

  function ConfirmedOf(i: nat, log: seq<Entry>): set<int> {
    set k | 0 <= k < |log| && log[k].Confirmed? && log[k].endpoint == i :: log[k].result.port
  }

  function BanneredOf(i: nat, log: seq<Entry>): set<int> {
    set k | 0 <= k < |log| && log[k].Bannered? && log[k].endpoint == i :: log[k].port
  }

  /** Each result of the endpoint is as it was confirmed but for its banner, and that is the one recorded for it. */
  predicate HoldsOwn(i: nat, p: Progress, log: seq<Entry>) {
    forall k :: 0 <= k < |log| ==>
      && (log[k].Confirmed? && log[k].endpoint == i ==>
            var r := log[k].result;
            && r.port in p.completed && p.completed[r.port] == r.(banner := p.completed[r.port].banner)
            && (r.port !in p.banners ==> p.completed[r.port] == r))
      && (log[k].Bannered? && log[k].endpoint == i ==>
            log[k].port in p.completed && Carries(p.completed[log[k].port].banner, log[k].banner))
  }

  predicate HeldAt(i: nat, p: Progress, log: seq<Entry>) {
    p.completed.Keys == ConfirmedOf(i, log) && p.banners == BanneredOf(i, log) && HoldsOwn(i, p, log)
  }

  /** No banner of an endpoint is recorded twice. */
  predicate OncePerBanner(log: seq<Entry>) {
    forall a, b :: 0 <= a < b < |log| && log[a].Bannered? && log[b].Bannered? && log[a].endpoint == log[b].endpoint
      ==> log[a].port != log[b].port
  }

  predicate Held(store: Option<Checkpoint>, log: seq<Entry>) {
    && OncePerBanner(log)
    && match store
       case None => log == []
       case Some(c) => forall i :: 0 <= i < |c.endpoints| ==> HeldAt(i, c.endpoints[i], log)
  }

  /** The entries say nothing about this endpoint. */
  predicate Foreign(i: nat, entries: seq<Entry>) {
    forall k :: 0 <= k < |entries| ==>
      && (entries[k].Confirmed? ==> entries[k].endpoint != i) && (entries[k].Bannered? ==> entries[k].endpoint != i)
  }

  lemma ForeignHeld(i: nat, p: Progress, q: Progress, log: seq<Entry>, entries: seq<Entry>)
    requires HeldAt(i, p, log) && Foreign(i, entries) && q.completed == p.completed && q.banners == p.banners
    ensures HeldAt(i, q, log + entries)
  {
    var all := log + entries;
    assert forall k :: 0 <= k < |log| ==> all[k] == log[k];
    assert forall k :: |log| <= k < |all| ==> all[k] == entries[k - |log|];
    assert ConfirmedOf(i, all) == ConfirmedOf(i, log) && BanneredOf(i, all) == BanneredOf(i, log);
  }

  lemma BatchHeld(i: nat, p: Progress, q: Progress, log: seq<Entry>, batch: seq<PortResult>)
    requires HeldAt(i, p, log) && ResultsAdded(p, q, batch)
    ensures HeldAt(i, q, log + ConfirmedAll(i, batch))
  {
    var more := ConfirmedAll(i, batch);
    var all := log + more;
    assert forall k :: 0 <= k < |log| ==> all[k] == log[k];
    assert forall k :: |log| <= k < |all| ==> all[k] == Confirmed(i, batch[k - |log|]);
    forall x | x in Elems(Ports(batch)) ensures x in ConfirmedOf(i, all) {
      var k :| 0 <= k < |batch| && Ports(batch)[k] == x;
      assert all[|log| + k].result.port == x;
    }
    forall x | x in ConfirmedOf(i, all) ensures x in ConfirmedOf(i, log) || x in Elems(Ports(batch)) {
      var k :| 0 <= k < |all| && all[k].Confirmed? && all[k].endpoint == i && all[k].result.port == x;
      if |log| <= k { assert Ports(batch)[k - |log|] == x; }
    }
    assert BanneredOf(i, all) == BanneredOf(i, log);
  }

  lemma BannerHeld(i: nat, p: Progress, q: Progress, log: seq<Entry>, port: int, banner: Option<string>)
    requires HeldAt(i, p, log) && BannerAdded(p, q, port, banner) && port !in p.banners
    ensures HeldAt(i, q, log + [Bannered(i, port, banner)])
  {
    var all := log + [Bannered(i, port, banner)];
    assert forall k :: 0 <= k < |log| ==> all[k] == log[k];
    assert ConfirmedOf(i, all) == ConfirmedOf(i, log);
    assert BanneredOf(i, all) == BanneredOf(i, log) + {port} by {
      assert all[|log|] == Bannered(i, port, banner);
    }
    forall k | 0 <= k < |log| && log[k].Bannered? && log[k].endpoint == i ensures log[k].port != port {
      assert log[k].port in BanneredOf(i, log);
    }
  }

  /** A store call of a worker: its own endpoint gets the entries, the others stay. */
  lemma WriteHeld(c: Checkpoint, d: Checkpoint, i: nat, worker: Worker, now: int, log: seq<Entry>)
    requires Wants(worker) && WorkerWrote(c, d, i, worker, now) && Held(Some(c), log)
    requires worker.Banners? ==> worker.grabbed.value.port !in c.endpoints[i].banners
    ensures Held(Some(d), log + WrittenEntries(i, worker))
  {
    var entries := WrittenEntries(i, worker);
    forall j: nat | j < |d.endpoints| ensures HeldAt(j, d.endpoints[j], log + entries) {
      if j != i {
        ForeignHeld(j, c.endpoints[j], d.endpoints[j], log, entries);
      } else if worker.Scans? {
        BatchHeld(i, c.endpoints[i], d.endpoints[i], log, worker.phase.inflight);
      } else {
        BannerHeld(i, c.endpoints[i], d.endpoints[i], log, worker.grabbed.value.port, worker.grabbed.value.banner);
      }
    }
    BannersStayOnce(c, i, worker, log);
  }

  lemma BannersStayOnce(c: Checkpoint, i: nat, worker: Worker, log: seq<Entry>)
    requires Wants(worker) && i < |c.endpoints| && Held(Some(c), log)
    requires worker.Banners? ==> worker.grabbed.value.port !in c.endpoints[i].banners
    ensures OncePerBanner(log + WrittenEntries(i, worker))
  {
    var entries := WrittenEntries(i, worker);
    var all := log + entries;
    forall a, b | 0 <= a < b < |all| && all[a].Bannered? && all[b].Bannered? && all[a].endpoint == all[b].endpoint
      ensures all[a].port != all[b].port
    {
      if |log| <= b {
        assert all[b] == entries[b - |log|] && all[a] == log[a];
        assert log[a].port in BanneredOf(i, log);
      }
    }
  }

  /** A write of the coordinator: no result and no banner changes. */
  lemma PlainHeld(c: Checkpoint, d: Checkpoint, log: seq<Entry>, entries: seq<Entry>)
    requires Held(Some(c), log) && |d.endpoints| == |c.endpoints|
    requires forall i :: 0 <= i < |c.endpoints| ==>
      d.endpoints[i].completed == c.endpoints[i].completed && d.endpoints[i].banners == c.endpoints[i].banners
    requires forall k :: 0 <= k < |entries| ==> !entries[k].Confirmed? && !entries[k].Bannered?
    ensures Held(Some(d), log + entries)
  {
    forall i: nat | i < |d.endpoints| ensures HeldAt(i, d.endpoints[i], log + entries) {
      ForeignHeld(i, c.endpoints[i], d.endpoints[i], log, entries);
    }
  }

  function EntriesOf(w: World, step: Step): seq<Entry>
    requires step.Write? ==> step.endpoint < |w.workers| && Wants(w.workers[step.endpoint])
    requires step.WriteMark? ==> w.main.Marking?
  {
    match step
    case Write(i, _) => WrittenEntries(i, w.workers[i])
    case WriteMark(_) => [Errored(w.main.endpoint, w.main.text)]
    case ToRunning(_) => [Transition]
    case _ => [Terminated]
  }

  lemma LogGrows(cfg: Config, w: World, step: Step)
    requires Inv(cfg, w) && Enabled(cfg, w, step) && BatchContents.Writes(step) && w.store.Some?
    ensures step.Write? ==> step.endpoint < |w.workers| && Wants(w.workers[step.endpoint])
    ensures step.WriteMark? ==> w.main.Marking?
    ensures Apply(cfg, w, step).log == w.log + EntriesOf(w, step)
  {
    if step.Finalize? {
      FinalizeApplies(cfg, w, step);
      PendingBranchUnreachable(cfg, w.store.value, w);
      VerdictIsTerminal(w.store.value, step.now);
    }
  }

  lemma CreatedHeld(c: Checkpoint, sessionId: int, plan: Plan, now: int)
    requires NewSession(c, sessionId, plan, now)
    ensures Held(Some(c), [])
  {
    forall i: nat | i < |c.endpoints| ensures HeldAt(i, c.endpoints[i], []) {
      assert Untouched(c.endpoints[i], plan.targets[i], plan.ports);
      assert c.endpoints[i].completed.Keys == {} == ConfirmedOf(i, []);
    }
  }

  lemma GrabIsNew(cfg: Config, w: World, step: Step)
    requires Inv(cfg, w) && Enabled(cfg, w, step) && step.Write? && w.store.Some?
    ensures step.endpoint < |w.workers| == |w.store.value.endpoints| && Wants(w.workers[step.endpoint])
    ensures var worker := w.workers[step.endpoint];
      worker.Banners? ==> worker.grabbed.value.port !in w.store.value.endpoints[step.endpoint].banners
  {
    var worker := w.workers[step.endpoint];
    assert Live(worker);
    assert WorkerInv(cfg, w.store.value.plan, w.store.value.endpoints[step.endpoint], worker);
  }

  /** A write of the coordinator leaves every result and every banner. */
  lemma PlainSucceeds(w: World, step: Step, c: Checkpoint, d: Checkpoint)
    requires Succeeds(w, step, c, d) && !step.Write?
    ensures |d.endpoints| == |c.endpoints|
    ensures forall i :: 0 <= i < |c.endpoints| ==>
      d.endpoints[i].completed == c.endpoints[i].completed && d.endpoints[i].banners == c.endpoints[i].banners
  {
    forall i | 0 <= i < |c.endpoints|
      ensures d.endpoints[i].completed == c.endpoints[i].completed && d.endpoints[i].banners == c.endpoints[i].banners
    {
      if step.WriteMark? && i != w.main.endpoint {
        assert d.endpoints[i] == c.endpoints[i];
      }
    }
  }

  lemma HeldWrite(w: World, step: Step, d: Checkpoint)
    requires w.store.Some? && Succeeds(w, step, w.store.value, d) && Held(w.store, w.log)
    requires step.WriteMark? ==> w.main.Marking?
    requires step.Write? ==>
      && step.endpoint < |w.workers| == |w.store.value.endpoints| && Wants(w.workers[step.endpoint])
      && (w.workers[step.endpoint].Banners? ==>
            w.workers[step.endpoint].grabbed.value.port !in w.store.value.endpoints[step.endpoint].banners)
    ensures Held(Some(d), w.log + EntriesOf(w, step))
  {
    if step.Write? {
      WriteHeld(w.store.value, d, step.endpoint, w.workers[step.endpoint], step.now, w.log);
    } else {
      PlainSucceeds(w, step, w.store.value, d);
      PlainHeld(w.store.value, d, w.log, EntriesOf(w, step));
    }
  }

  lemma HeldStep(cfg: Config, w: World, step: Step)
    requires Inv(cfg, w) && Enabled(cfg, w, step) && Held(w.store, w.log)
    ensures Held(Apply(cfg, w, step).store, Apply(cfg, w, step).log)
  {
    var after := Apply(cfg, w, step);
    StepContents(cfg, w, step);
    if step.Create? {
      CreatedHeld(after.store.value, step.sessionId, step.plan, step.now);
      assert after.log == [];
    } else if w.store.None? || !BatchContents.Writes(step) {
      QuietContents(cfg, w, step);
    } else {
      LogGrows(cfg, w, step);
      if step.Write? { GrabIsNew(cfg, w, step); }
      HeldWrite(w, step, after.store.value);
    }
  }

  // ---------- Whole runs ----------

  lemma {:induction false} RunIsHeld(cfg: Config, w: World, steps: seq<Step>)
    requires Inv(cfg, w) && Legal(cfg, w, steps) && Held(w.store, w.log)
    ensures Held(Execute(cfg, w, steps).store, Execute(cfg, w, steps).log)
    decreases |steps|
  {
    if steps != [] {
      StepKeepsInv(cfg, w, steps[0]);
      HeldStep(cfg, w, steps[0]);
      RunIsHeld(cfg, Apply(cfg, w, steps[0]), steps[1..]);
    }
  }

  lemma {:induction false} RunIsSourced(cfg: Config, w: World, done: seq<Step>, steps: seq<Step>)
    requires Inv(cfg, w) && Legal(cfg, w, steps) && Sourced(w, done)
    ensures Sourced(Execute(cfg, w, steps), done + steps)
    decreases |steps|
  {
    if steps == [] {
      assert done + steps == done;
    } else {
      var next := Apply(cfg, w, steps[0]);
      StepKeepsInv(cfg, w, steps[0]);
      SourcedStep(cfg, w, steps[0], done);
      RunIsSourced(cfg, next, done + [steps[0]], steps[1..]);
      assert done + [steps[0]] + steps[1..] == done + steps;
    }
  }

  /** What has been confirmed is there.  In every interleaving, with any crashes and resumes, each endpoint holds
      exactly the results that were confirmed for it, each as it was confirmed but for its banner, and with the banner
      that was recorded; no banner is recorded twice. */
  lemma ConfirmedIsHeld(cfg: Config, steps: seq<Step>)
    requires ValidConfig(cfg) && Legal(cfg, EMPTY_WORLD, steps)
    ensures var w := Execute(cfg, EMPTY_WORLD, steps); Held(w.store, w.log)
  {
    RunIsHeld(cfg, EMPTY_WORLD, steps);
  }

  /** The confirmed result of a port is one that was reported for its endpoint, but for its banner, and that is one that
      was returned for the port. */
  ghost predicate AsDelivered(i: nat, p: Progress, steps: seq<Step>, port: int)
    requires port in p.completed
  {
    && (exists r :: WasReported(steps, i, r) && r.port == port
                    && p.completed[port] == r.(banner := p.completed[port].banner)
                    && (port !in p.banners ==> p.completed[port] == r))
    && (port in p.banners ==>
          exists banner :: WasGrabbed(steps, i, Grab(port, banner)) && Carries(p.completed[port].banner, banner))
  }

  /** Nothing is invented or mixed up on the way into the store: every result and every banner of an endpoint is one
      that was delivered for this endpoint and this port. */
  lemma NothingIsInvented(cfg: Config, steps: seq<Step>, i: nat, port: int)
    requires ValidConfig(cfg) && Legal(cfg, EMPTY_WORLD, steps)
    requires var store := Execute(cfg, EMPTY_WORLD, steps).store;
      store.Some? && i < |store.value.endpoints| && port in store.value.endpoints[i].completed
    ensures AsDelivered(i, Execute(cfg, EMPTY_WORLD, steps).store.value.endpoints[i], steps, port)
  {
    RunIsHeld(cfg, EMPTY_WORLD, steps);
    RunIsSourced(cfg, EMPTY_WORLD, [], steps);
    assert [] + steps == steps;
    var w := Execute(cfg, EMPTY_WORLD, steps);
    DeliveredFromLog(i, w.store.value.endpoints[i], w.log, steps, port);
  }

  lemma DeliveredFromLog(i: nat, p: Progress, log: seq<Entry>, steps: seq<Step>, port: int)
    requires HeldAt(i, p, log) && LogSourced(steps, log) && port in p.completed
    ensures AsDelivered(i, p, steps, port)
  {
    assert port in ConfirmedOf(i, log);
    var k :| 0 <= k < |log| && log[k].Confirmed? && log[k].endpoint == i && log[k].result.port == port;
    assert EntrySourced(steps, log[k]);
    if port in p.banners {
      assert port in BanneredOf(i, log);
      var j :| 0 <= j < |log| && log[j].Bannered? && log[j].endpoint == i && log[j].port == port;
      assert EntrySourced(steps, log[j]);
    }
  }

  /** Every error on record is one that the endpoint's own worker raised. */
  lemma ErrorsWereRaised(cfg: Config, steps: seq<Step>, i: nat)
    requires ValidConfig(cfg) && Legal(cfg, EMPTY_WORLD, steps)
    requires var store := Execute(cfg, EMPTY_WORLD, steps).store;
      store.Some? && i < |store.value.endpoints| && store.value.endpoints[i].error.Some?
    ensures WasRaised(steps, i, ScanPhase.ErrorFault(
      Execute(cfg, EMPTY_WORLD, steps).store.value.endpoints[i].error.value))
  {
    RunIsSourced(cfg, EMPTY_WORLD, [], steps);
    assert [] + steps == steps;
    NoLostUpdates(cfg, steps);
    RunKeepsInv(cfg, EMPTY_WORLD, steps);
    var w := Execute(cfg, EMPTY_WORLD, steps);
    ErrorIsLogged(w.store.value.plan, i, w.log);
    var k :| 0 <= k < |w.log| && w.log[k] == Errored(i, w.store.value.endpoints[i].error.value);
    assert EntrySourced(steps, w.log[k]);
  }

  lemma {:induction false} ErrorIsLogged(plan: Plan, i: nat, log: seq<Entry>)
    requires i < |plan.targets|
    ensures var error := Fold(i, Fresh(plan, i), log).error;
      error.Some? ==> exists k :: 0 <= k < |log| && log[k] == Errored(i, error.value)
  {
    if log != [] {
      var front, last := log[..|log| - 1], log[|log| - 1];
      ErrorIsLogged(plan, i, front);
      var error, before := Fold(i, Fresh(plan, i), log).error, Fold(i, Fresh(plan, i), front).error;
      if error.Some? {
        if last == Errored(i, error.value) {
          assert log[|log| - 1] == last;
        } else {
          assert error == before;
          var k :| 0 <= k < |front| && front[k] == Errored(i, error.value);
          assert log[k] == front[k];
        }
      }
    }
  }
}
