/** How a batch resume spreads its work: which endpoints it starts, in which order, and with how many scan workers. */
module BatchSchedule {
  import opened Common
  import opened Session
  import opened BatchRunner
  import opened BatchSafety

  predicate Ascending(s: seq<nat>) { forall j, k :: 0 <= j < k < |s| ==> s[j] < s[k] }

  /** The number is a bound of all these and one of them. */
  predicate IsMinimum(x: int, a: int, b: int, c: int) {
    x <= a && x <= b && x <= c && (x == a || x == b || x == c)
  }

  /** Ports are pending, or a banner of an open port is missing. */
  predicate Unfinished(p: Progress, bannerGrab: bool) {
    || (exists x :: x in p.pending)
    || (bannerGrab && exists x :: x in p.completed && p.completed[x].state == Open && x !in p.banners)
  }

  lemma {:induction false} NeedingAscends(es: seq<Progress>, plan: Plan, n: nat)
    requires n <= |es|
    ensures Ascending(Needing(es, plan, n))
  {
    if n > 0 {
      NeedingAscends(es, plan, n - 1);
      var before := Needing(es, plan, n - 1);
      assert forall k :: 0 <= k < |before| ==> before[k] in before;
    }
  }

  lemma NeedsWorkExactly(p: Progress, plan: Plan)
    requires ValidProgress(p) && p.error == None
    ensures NeedsWork(p, plan) <==> Unfinished(p, plan.bannerGrab)
  {
    if plan.bannerGrab && forall x :: x in OpenPorts(p) ==> x in p.banners {
      assert p.banners == OpenPorts(p);
    }
    assert forall x :: x in OpenPorts(p) <==> x in p.completed && p.completed[x].state == Open;
    if forall x :: x !in p.pending {
      assert p.pending == {};
    }
  }

  /** The start of a resume: exactly the unfinished endpoints are queued, in the order of the plan, nobody is active
      yet, and as many may be at a time as the plan's target workers, its threads and the queue allow. */
  lemma QueueExactly(cfg: Config, w: World, step: Step)
    requires Inv(cfg, w) && Enabled(cfg, w, step) && step.ToRunning?
    ensures var after := Apply(cfg, w, step); var c := w.store.value;
      && Ascending(after.queue.queued) && after.queue.active == {} && after.starts == []
      && (forall i: nat :: i in after.queue.queued <==>
            i < |c.endpoints| && Unfinished(c.endpoints[i], c.plan.bannerGrab))
      && IsMinimum(after.queue.effective, c.plan.targetWorkers, c.plan.threads, |after.queue.queued|)
      && after.main == (if after.queue.queued == [] then Deciding else Looping)
  {
    var c := w.store.value;
    var cleared := Cleared(c.endpoints);
    NeedingAscends(cleared, c.plan, |cleared|);
    forall i: nat | i < |c.endpoints|
      ensures NeedsWork(cleared[i], c.plan) <==> Unfinished(c.endpoints[i], c.plan.bannerGrab)
    {
      NeedsWorkExactly(cleared[i], c.plan);
    }
  }

  /** The endpoints that have been started, and then the queued ones, are in the order of the plan. */
  predicate InOrder(w: World) { InResume(w.main) ==> Ascending(w.starts + w.queue.queued) }

  lemma OrderStep(cfg: Config, w: World, step: Step)
    requires Enabled(cfg, w, step) && InOrder(w)
    ensures InOrder(Apply(cfg, w, step))
  {
    if step.ToRunning? {
      var c := w.main.checkpoint;
      NeedingAscends(Cleared(c.endpoints), c.plan, |c.endpoints|);
      var queued := Apply(cfg, w, step).queue.queued;
      assert [] + queued == queued;
    } else if step.Submit? {
      assert w.starts + [w.queue.queued[0]] + w.queue.queued[1..] == w.starts + w.queue.queued;
    }
  }

  /** In every reachable state of a resume the endpoints are started in the order of the plan. */
  lemma {:induction false} StartsAreInOrder(cfg: Config, w: World, steps: seq<Step>)
    requires Legal(cfg, w, steps) && InOrder(w)
    ensures InOrder(Execute(cfg, w, steps))
    decreases |steps|
  {
    if steps != [] {
      OrderStep(cfg, w, steps[0]);
      StartsAreInOrder(cfg, Apply(cfg, w, steps[0]), steps[1..]);
    }
  }

  /** The threads of the plan are shared out evenly: one worker more for each would exceed them. */
  lemma ShareExactly(plan: Plan, effective: int)
    requires 1 <= effective <= plan.threads
    ensures var share := WorkersPerEndpoint(plan, effective);
      1 <= share && effective * share <= plan.threads < effective * (share + 1)
  {
    ShareFits(plan.threads, effective);
  }

  /** A scan gets its share, or one worker for each port when that is less. */
  lemma GrantExactly(plan: Plan, effective: int, worker: Worker)
    requires effective > 0 && worker.Scans?
    ensures var share, ports := WorkersPerEndpoint(plan, effective), |worker.phase.request|;
      ScanWorkers(plan, effective, worker) == if ports < share then ports else share
  {
  }
}
