/** Whole runs of the single-target runner: create, resume, cancel, fail, crash and resume again, any number of times,
    with the scan callback and the periodic flusher interleaved at lock granularity.

    `store` is the checkpoint the store loads; `SingleRunnerStore` shows that every step is a call the v2 store
    accepts and that turns its tables into exactly this checkpoint. */
module SingleRunner {
  import opened Common
  import opened Session
  import opened StoreV2Increments
  import opened SessionChanges
  import ScanPhase

  datatype Proc =
    | Down                                   // no run: never started, returned, raised or killed
    | Resumed(loaded: Checkpoint)            // resume has loaded an unfinished session
    | Started                                // RUNNING is persisted
    | Scanning(phase: ScanPhase.Phase, raised: Option<ScanPhase.Fault>)
    | Bannering(todo: set<int>)
    | Completing
    | Failing(fault: ScanPhase.Fault)

  /** The history of the session over all its runs: every scan that was asked for and every unit of the sequence, in the
      order they happened. */
  datatype Entry =
    | Transition
    | Requested(ports: set<int>)
    | Confirmed(result: PortResult)
    | Bannered(port: int, banner: Option<string>)
    | Terminated

  datatype World = World(store: Option<Checkpoint>, proc: Proc, log: seq<Entry>)

  const EMPTY_WORLD := World(None, Down, [])

  datatype Step =
    | Create(sessionId: int, plan: Plan, now: int)
    | Load
    | ToRunning(now: int)
    | CancelledAtStart(fault: ScanPhase.Fault)
    | BeginScan
    | Accept(result: PortResult)
    | FlusherTake
    | Commit(now: int)
    | CommitFails
    | FlusherFails
    | ScanReturns(raised: Option<ScanPhase.Fault>)
    | Join
    | FinalTake
    | ScanFails(fault: ScanPhase.Fault)
    | ScanDone
    | RecordBanner(port: int, banner: Option<string>, now: int)
    | BannerRaises(fault: ScanPhase.Fault)
    | BannersDone
    | PersistCompleted(now: int)
    | CompletionRaises(fault: ScanPhase.Fault)
    | PersistFault(now: int)
    | Crash

  function ConfirmedAll(batch: seq<PortResult>): seq<Entry> {
    seq(|batch|, k requires 0 <= k < |batch| => Confirmed(batch[k]))
  }

  function Endpoint(w: World): Progress
    requires w.store.Some? && |w.store.value.endpoints| == 1
  {
    w.store.value.endpoints[0]
  }

  predicate Enabled(limit: int, w: World, step: Step) {
    if step.Create? then
      w.store.None? && w.proc.Down? && ValidPlan(step.plan) && PlanAllowed(SingleTarget, step.plan)
    else if step.Crash? then true
    else if w.store.None? || |w.store.value.endpoints| != 1 then false
    else
      var c, p := w.store.value, w.store.value.endpoints[0];
      match step
      case Load => w.proc.Down?
      case ToRunning(now) => w.proc.Resumed? && |w.proc.loaded.endpoints| == 1 && c.createdAt <= now
      case CancelledAtStart(fault) => w.proc.Started? && fault.CancelFault? && ScanPhase.TextOk(fault)
      case BeginScan => w.proc.Started?
      case Accept(r) => w.proc.Scanning? && ScanPhase.Accepts(w.proc.phase, p.identity, r)
      case FlusherTake => w.proc.Scanning? && ScanPhase.FlusherCanTake(w.proc.phase)
      case Commit(now) => w.proc.Scanning? && w.proc.phase.holder != ScanPhase.Free && c.updatedAt <= now
      case CommitFails => w.proc.Scanning? && w.proc.phase.holder != ScanPhase.Free
      case FlusherFails => w.proc.Scanning? && w.proc.phase.failing
      case ScanReturns(raised) =>
        && w.proc.Scanning? && w.proc.phase.stage == ScanPhase.Scanning && w.proc.phase.holder != ScanPhase.Callback
        && (raised.Some? ==> ScanPhase.TextOk(raised.value))
      case Join => w.proc.Scanning? && ScanPhase.CanJoin(w.proc.phase)
      case FinalTake => w.proc.Scanning? && ScanPhase.FinalCanTake(w.proc.phase)
      case ScanFails(fault) =>
        w.proc.Scanning? && ScanPhase.RaisesAfter(p, w.proc.phase, w.proc.raised, fault) && ScanPhase.TextOk(fault)
      case ScanDone => w.proc.Scanning? && ScanPhase.SucceedsAfter(p, w.proc.phase, w.proc.raised)
      case RecordBanner(port, banner, now) =>
        && w.proc.Bannering? && port in w.proc.todo && c.updatedAt <= now
        && (banner.Some? ==> |banner.value| <= MAX_BANNER_LENGTH)
      case BannerRaises(fault) => w.proc.Bannering? && ScanPhase.TextOk(fault)
      case BannersDone => w.proc.Bannering? && w.proc.todo == {}
      case PersistCompleted(now) => w.proc.Completing? && c.createdAt <= now
      case CompletionRaises(fault) => w.proc.Completing? && ScanPhase.TextOk(fault)
      case PersistFault(now) => w.proc.Failing? && c.createdAt <= now
  }

  /** The banners still to grab, or straight to completion when the plan wants none. */
  function AfterScan(c: Checkpoint, p: Progress): Proc {
    if c.plan.bannerGrab then Bannering(OpenPorts(p) - p.banners) else Completing
  }

  function Apply(limit: int, w: World, step: Step): World
    requires Enabled(limit, w, step)
  {
    if step.Create? then w.(store := Some(CreatedCheckpoint(step.sessionId, step.plan, step.now)))
    else if step.Crash? then w.(proc := Down)
    else
      var c, p := w.store.value, w.store.value.endpoints[0];
      match step
      case Load => if c.status == Completed then w else w.(proc := Resumed(c))
      case ToRunning(now) =>
        var from := w.proc.loaded;
        World(Some(Advance(from, [WithError(from.endpoints[0], None)], Running, None, now)), Started,
              w.log + [Transition])
      case CancelledAtStart(fault) => w.(proc := Failing(fault))
      case BeginScan =>
        if p.pending == {} then w.(proc := AfterScan(c, p))
        else World(w.store, Scanning(ScanPhase.Begin(p), None),
                   w.log + [Requested(p.pending)])
      case Accept(r) => w.(proc := w.proc.(phase := ScanPhase.Accept(w.proc.phase, r, limit)))
      case FlusherTake => w.(proc := w.proc.(phase := ScanPhase.Take(w.proc.phase, ScanPhase.Flusher)))
      case Commit(now) =>
        var batch := w.proc.phase.inflight;
        World(Some(RecordedAt(c, 0, batch, now, None)), w.proc.(phase := ScanPhase.Committed(w.proc.phase)),
              w.log + ConfirmedAll(batch))
      case CommitFails => w.(proc := w.proc.(phase := ScanPhase.CommitFailed(w.proc.phase)))
      case FlusherFails => w.(proc := w.proc.(phase := ScanPhase.FlushErrorRecorded(w.proc.phase)))
      case ScanReturns(raised) =>
        w.(proc := Scanning(w.proc.phase.(stage := ScanPhase.Joining), raised))
      case Join => w.(proc := w.proc.(phase := w.proc.phase.(stage := ScanPhase.Joined)))
      case FinalTake => w.(proc := w.proc.(phase := ScanPhase.Take(w.proc.phase, ScanPhase.Final)))
      case ScanFails(fault) => w.(proc := Failing(fault))
      case ScanDone => w.(proc := AfterScan(c, p))
      case RecordBanner(port, banner, now) =>
        World(Some(BanneredAt(c, 0, port, banner, now)), Bannering(w.proc.todo - {port}),
              w.log + [Bannered(port, banner)])
      case BannerRaises(fault) => w.(proc := Failing(fault))
      case BannersDone => w.(proc := Completing)
      case PersistCompleted(now) =>
        World(Some(Advance(c, [p], Completed, None, now)), Down, w.log + [Terminated])
      case CompletionRaises(fault) => w.(proc := Failing(fault))
      case PersistFault(now) =>
        var next :=
          match w.proc.fault
          case CancelFault(text) => Advance(c, [p], Cancelled, Some(text), now)
          case ErrorFault(text) => Advance(c, [WithError(p, Some(text))], Failed, Some(text), now);
        World(Some(next), Down, w.log + [Terminated])
  }

  // ---------- The invariant ----------

  /** The ports confirmed, and the banners recorded, by a history. */
  function ConfirmedIn(log: seq<Entry>): set<int> {
    set k | 0 <= k < |log| && log[k].Confirmed? :: log[k].result.port
  }

  function BanneredIn(log: seq<Entry>): set<int> {
    set k | 0 <= k < |log| && log[k].Bannered? :: log[k].port
  }

  /** The units of the sequence in a history: everything but the requests. */
  function Units(log: seq<Entry>): nat {
    if log == [] then 0 else Units(log[..|log| - 1]) + if log[|log| - 1].Requested? then 0 else 1
  }

  /** No port is confirmed twice, and no banner recorded twice. */
  predicate OnceEach(log: seq<Entry>) {
    forall a, b :: 0 <= a < b < |log| ==>
      && (log[a].Confirmed? && log[b].Confirmed? ==> log[a].result.port != log[b].result.port)
      && (log[a].Bannered? && log[b].Bannered? ==> log[a].port != log[b].port)
  }

  /** Every confirmed result is in the session as it was confirmed, but for its banner, and that is the one that was
      recorded for its port, if one was. */
  predicate HoldsLog(p: Progress, log: seq<Entry>) {
    forall k :: 0 <= k < |log| ==>
      && (log[k].Confirmed? ==>
            var r := log[k].result;
            && r.port in p.completed && p.completed[r.port] == r.(banner := p.completed[r.port].banner)
            && (r.port !in p.banners ==> p.completed[r.port] == r))
      && (log[k].Bannered? ==>
            log[k].port in p.completed && Carries(p.completed[log[k].port].banner, log[k].banner))
  }

  /** Each scan was asked for exactly the ports of the plan that had not been confirmed before it. */
  predicate AsksTheRest(plan: Plan, log: seq<Entry>) {
    forall k :: 0 <= k < |log| && log[k].Requested? ==> log[k].ports == plan.ports - ConfirmedIn(log[..k])
  }

  /** The durable half: a valid single-endpoint checkpoint that the history accounts for, entry by entry. */
  predicate StoreInv(c: Checkpoint, log: seq<Entry>) {
    && ValidCheckpoint(c) && PlanAllowed(SingleTarget, c.plan) && |c.endpoints| == 1
    && OnceEach(log) && AsksTheRest(c.plan, log)
    && ConfirmedIn(log) == c.endpoints[0].completed.Keys && BanneredIn(log) == c.endpoints[0].banners
    && c.sequence == Units(log) && HoldsLog(c.endpoints[0], log)
  }

  lemma {:induction false} UnitsAppend(a: seq<Entry>, b: seq<Entry>)
    ensures Units(a + b) == Units(a) + Units(b)
  {
    if b == [] {
      assert a + b == a;
    } else {
      UnitsAppend(a, b[..|b| - 1]);
      assert (a + b)[..|a + b| - 1] == a + b[..|b| - 1];
    }
  }

  lemma {:induction false} UnitsOfBatch(batch: seq<PortResult>)
    ensures Units(ConfirmedAll(batch)) == |batch|
  {
    if batch != [] {
      UnitsOfBatch(batch[..|batch| - 1]);
      assert ConfirmedAll(batch)[..|batch| - 1] == ConfirmedAll(batch[..|batch| - 1]);
    }
  }

  lemma SetsAppend(a: seq<Entry>, b: seq<Entry>)
    ensures ConfirmedIn(a + b) == ConfirmedIn(a) + ConfirmedIn(b) && BanneredIn(a + b) == BanneredIn(a) + BanneredIn(b)
  {
    var s := a + b;
    assert forall k :: 0 <= k < |a| ==> s[k] == a[k];
    assert forall k :: 0 <= k < |b| ==> s[|a| + k] == b[k];
  }

  /** The history grows by entries that are new to it; a request asks for what is not confirmed before it. */
  lemma HistoryGrows(plan: Plan, log: seq<Entry>, more: seq<Entry>)
    requires OnceEach(log) && AsksTheRest(plan, log) && OnceEach(more)
    requires forall k :: 0 <= k < |more| && more[k].Confirmed? ==> more[k].result.port !in ConfirmedIn(log)
    requires forall k :: 0 <= k < |more| && more[k].Bannered? ==> more[k].port !in BanneredIn(log)
    requires forall k :: 0 <= k < |more| && more[k].Requested? ==>
      k == 0 && more[k].ports == plan.ports - ConfirmedIn(log)
    ensures OnceEach(log + more) && AsksTheRest(plan, log + more) && Units(log + more) == Units(log) + Units(more)
    ensures ConfirmedIn(log + more) == ConfirmedIn(log) + ConfirmedIn(more)
    ensures BanneredIn(log + more) == BanneredIn(log) + BanneredIn(more)
  {
    UnitsAppend(log, more);
    SetsAppend(log, more);
    var all := log + more;
    forall k | 0 <= k < |all| && all[k].Requested? ensures all[k].ports == plan.ports - ConfirmedIn(all[..k]) {
      if k < |log| {
        assert all[..k] == log[..k];
      } else {
        assert more[k - |log|] == all[k];
        assert all[..k] == log;
      }
    }
    OnceJoined(log, more);
  }

  lemma OnceJoined(log: seq<Entry>, more: seq<Entry>)
    requires OnceEach(log) && OnceEach(more)
    requires forall k :: 0 <= k < |more| && more[k].Confirmed? ==> more[k].result.port !in ConfirmedIn(log)
    requires forall k :: 0 <= k < |more| && more[k].Bannered? ==> more[k].port !in BanneredIn(log)
    ensures OnceEach(log + more)
  {
    var all := log + more;
    forall a, b | 0 <= a < b < |all|
      ensures all[a].Confirmed? && all[b].Confirmed? ==> all[a].result.port != all[b].result.port
      ensures all[a].Bannered? && all[b].Bannered? ==> all[a].port != all[b].port
    {
      if |log| <= a {
        assert all[a] == more[a - |log|] && all[b] == more[b - |log|];
      } else if |log| <= b {
        assert all[b] == more[b - |log|] && all[a] == log[a];
      }
    }
  }

  lemma OneEntry(e: Entry)
    ensures OnceEach([e]) && Units([e]) == if e.Requested? then 0 else 1
    ensures ConfirmedIn([e]) == if e.Confirmed? then {e.result.port} else {}
    ensures BanneredIn([e]) == if e.Bannered? then {e.port} else {}
  {
    assert [e][..0] == [] && [e][0] == e;
  }

  predicate ProcInv(limit: int, c: Checkpoint, proc: Proc)
    requires |c.endpoints| == 1
  {
    var p := c.endpoints[0];
    && (c.status == Completed ==> proc.Down?)
    && match proc
       case Down => true
       case Resumed(loaded) => loaded == c
       case Started => c.status == Running && p.error == None
       case Scanning(phase, raised) =>
         && c.status == Running && p.error == None && ScanPhase.Inv(p, phase, limit)
         && (raised.Some? ==> ScanPhase.TextOk(raised.value))
       case Bannering(todo) =>
         && c.status == Running && p.error == None && p.pending == {}
         && c.plan.bannerGrab && todo == OpenPorts(p) - p.banners
       case Completing => c.status == Running && Finished(p, c.plan)
       case Failing(fault) => c.status == Running && p.error == None && ScanPhase.TextOk(fault)
  }

  predicate Inv(limit: int, w: World) {
    match w.store
    case None => w == EMPTY_WORLD
    case Some(c) => StoreInv(c, w.log) && ProcInv(limit, c, w.proc)
  }

  /** What no step may undo: confirmed ports stay, a confirmed result changes in its banner only and not at all once
      its banner is confirmed, the sequence never goes back, and a completed session never changes. */
  predicate KeepsProgress(before: Progress, after: Progress) {
    && after.identity == before.identity
    && before.completed.Keys <= after.completed.Keys
    && before.banners <= after.banners
    && forall x :: x in before.completed ==>
         && after.completed[x] == before.completed[x].(banner := after.completed[x].banner)
         && (x in before.banners || x !in after.banners ==> after.completed[x] == before.completed[x])
  }

  predicate Keeps(before: Option<Checkpoint>, after: Option<Checkpoint>) {
    before.Some? ==>
      && after.Some?
      && var c, d := before.value, after.value;
         && d.sessionId == c.sessionId && d.plan == c.plan && d.createdAt == c.createdAt
         && c.sequence <= d.sequence
         && |d.endpoints| == |c.endpoints|
         && (forall i :: 0 <= i < |c.endpoints| ==> KeepsProgress(c.endpoints[i], d.endpoints[i]))
         && (c.status == Completed ==> d == c)
  }

  lemma KeepsTransitive(a: Option<Checkpoint>, b: Option<Checkpoint>, c: Option<Checkpoint>)
    requires Keeps(a, b) && Keeps(b, c)
    ensures Keeps(a, c)
  {
    if a.Some? {
      forall i | 0 <= i < |a.value.endpoints| ensures KeepsProgress(a.value.endpoints[i], c.value.endpoints[i]) {
        assert KeepsProgress(a.value.endpoints[i], b.value.endpoints[i]);
        assert KeepsProgress(b.value.endpoints[i], c.value.endpoints[i]);
      }
    }
  }

  lemma KeepsReflexive(a: Option<Checkpoint>)
    ensures Keeps(a, a)
  {
  }

  // ---------- One step ----------

  /** A successor of a single-endpoint checkpoint is valid when its endpoint and status are. */
  lemma SuccessorIsValid(c: Checkpoint, p: Progress, status: Status, lastError: Option<string>, now: int)
    requires ValidCheckpoint(c) && |c.endpoints| == 1 && c.createdAt <= now && ValidText(lastError)
    requires ValidProgress(p) && AccountsFor(p, c.plan) && p.identity == c.endpoints[0].identity
    requires status == Completed ==> Finished(p, c.plan) && lastError == None
    requires status == Failed ==> lastError.Some?
    requires status != Created
    ensures ValidCheckpoint(Advance(c, [p], status, lastError, now))
  {
    var d := Advance(c, [p], status, lastError, now);
    assert EndpointKeys(d.endpoints) == EndpointKeys(c.endpoints);
  }

  predicate Durable(step: Step) {
    step.Create? || step.ToRunning? || step.Commit? || step.RecordBanner? || step.PersistCompleted?
    || step.PersistFault?
  }

  predicate InScan(step: Step) {
    step.Accept? || step.FlusherTake? || step.CommitFails? || step.FlusherFails? || step.ScanReturns? || step.Join?
    || step.FinalTake?
  }

  lemma CreateStep(limit: int, w: World, step: Step)
    requires Inv(limit, w) && Enabled(limit, w, step) && step.Create? && limit >= 1
    ensures Inv(limit, Apply(limit, w, step)) && Keeps(w.store, Apply(limit, w, step).store)
  {
    CreatedIsValid(step.sessionId, step.plan, step.now);
  }

  /** An entry that confirms nothing and asks for nothing. */
  lemma PlainEntry(plan: Plan, log: seq<Entry>, e: Entry)
    requires OnceEach(log) && AsksTheRest(plan, log) && (e.Transition? || e.Terminated?)
    ensures OnceEach(log + [e]) && AsksTheRest(plan, log + [e]) && Units(log + [e]) == Units(log) + 1
    ensures ConfirmedIn(log + [e]) == ConfirmedIn(log) && BanneredIn(log + [e]) == BanneredIn(log)
  {
    OneEntry(e);
    HistoryGrows(plan, log, [e]);
  }

  /** A request for what is pending. */
  lemma RequestEntry(plan: Plan, log: seq<Entry>, ports: set<int>)
    requires OnceEach(log) && AsksTheRest(plan, log) && ports == plan.ports - ConfirmedIn(log)
    ensures var all := log + [Requested(ports)];
      && OnceEach(all) && AsksTheRest(plan, all) && Units(all) == Units(log)
      && ConfirmedIn(all) == ConfirmedIn(log) && BanneredIn(all) == BanneredIn(log)
  {
    OneEntry(Requested(ports));
    HistoryGrows(plan, log, [Requested(ports)]);
  }

  lemma ErrorIsSuccessor(c: Checkpoint, error: Option<string>, status: Status, lastError: Option<string>, now: int)
    requires ValidCheckpoint(c) && |c.endpoints| == 1 && c.createdAt <= now
    requires ValidText(error) && ValidText(lastError) && status != Created
    requires status == Completed ==> Finished(WithError(c.endpoints[0], error), c.plan) && lastError == None
    requires status == Failed ==> lastError.Some?
    ensures ValidCheckpoint(Advance(c, [WithError(c.endpoints[0], error)], status, lastError, now))
    ensures KeepsProgress(c.endpoints[0], WithError(c.endpoints[0], error))
  {
    var q := WithError(c.endpoints[0], error);
    assert ValidProgress(q) && AccountsFor(q, c.plan);
    SuccessorIsValid(c, q, status, lastError, now);
  }

  /** A whole checkpoint of the runner: it changes status and errors, keeps every result and is one unit. */
  lemma PlainMove(c: Checkpoint, log: seq<Entry>, error: Option<string>, status: Status, lastError: Option<string>,
                  now: int, e: Entry)
    requires StoreInv(c, log) && c.status != Completed && c.createdAt <= now && (e.Transition? || e.Terminated?)
    requires ValidText(error) && ValidText(lastError) && status != Created
    requires status == Completed ==> Finished(WithError(c.endpoints[0], error), c.plan) && lastError == None
    requires status == Failed ==> lastError.Some?
    ensures var d := Advance(c, [WithError(c.endpoints[0], error)], status, lastError, now);
      StoreInv(d, log + [e]) && Keeps(Some(c), Some(d))
  {
    ErrorIsSuccessor(c, error, status, lastError, now);
    PlainEntry(c.plan, log, e);
    HoldsError(c.endpoints[0], log, error, e);
  }

  lemma ToRunningStep(limit: int, w: World, step: Step)
    requires Inv(limit, w) && Enabled(limit, w, step) && step.ToRunning? && limit >= 1
    ensures Inv(limit, Apply(limit, w, step)) && Keeps(w.store, Apply(limit, w, step).store)
  {
    PlainMove(w.store.value, w.log, None, Running, None, step.now, Transition);
  }

  /** Recording a batch of pending ports adds entries and changes none. */
  lemma CommitKeepsProgress(p: Progress, batch: seq<PortResult>)
    requires ValidProgress(p) && Appendable(p, batch)
    ensures KeepsProgress(p, Recorded(p, batch))
    ensures Recorded(p, batch).completed.Keys == p.completed.Keys + Elems(Ports(batch))
    ensures Elems(Ports(batch)) <= p.pending
  {
    ByPortFacts(batch);
    forall x | x in Ports(batch) ensures x in p.pending {
      var k :| 0 <= k < |batch| && Ports(batch)[k] == x;
    }
    assert p.completed.Keys !! ByPort(batch).Keys;
  }

  lemma BatchInHistory(plan: Plan, log: seq<Entry>, batch: seq<PortResult>)
    requires OnceEach(log) && AsksTheRest(plan, log)
    requires NoRepeats(Ports(batch)) && Elems(Ports(batch)) !! ConfirmedIn(log)
    ensures var all := log + ConfirmedAll(batch);
      && OnceEach(all) && AsksTheRest(plan, all) && Units(all) == Units(log) + |batch|
      && ConfirmedIn(all) == ConfirmedIn(log) + Elems(Ports(batch)) && BanneredIn(all) == BanneredIn(log)
  {
    var more, ports := ConfirmedAll(batch), Ports(batch);
    UnitsOfBatch(batch);
    assert forall k :: 0 <= k < |batch| ==> ports[k] in Elems(ports) && more[k].result.port == ports[k];
    HistoryGrows(plan, log, more);
    assert ConfirmedIn(more) == Elems(ports) && BanneredIn(more) == {};
  }

  /** Progress that has only got more results, with these entries for them, still holds its history. */
  lemma HoldsBatch(p: Progress, log: seq<Entry>, batch: seq<PortResult>)
    requires ValidProgress(p) && HoldsLog(p, log) && Appendable(p, batch)
    ensures HoldsLog(Recorded(p, batch), log + ConfirmedAll(batch))
  {
    var q, all := Recorded(p, batch), log + ConfirmedAll(batch);
    ByPortFacts(batch);
    forall x | x in ByPort(batch) ensures x in p.pending {
      var k :| 0 <= k < |batch| && batch[k] == ByPort(batch)[x];
    }
    forall k | 0 <= k < |batch| ensures batch[k].port in q.completed && q.completed[batch[k].port] == batch[k] {
      FoundByPort(batch, k);
    }
    assert forall k :: |log| <= k < |all| ==> all[k] == Confirmed(batch[k - |log|]);
    assert forall k :: 0 <= k < |log| ==> all[k] == log[k];
  }

  /** The checkpoint with a batch of pending ports recorded is valid. */
  lemma CommittedIsSuccessor(c: Checkpoint, batch: seq<PortResult>, now: int)
    requires ValidCheckpoint(c) && |c.endpoints| == 1 && c.createdAt <= now && Appendable(c.endpoints[0], batch)
    ensures var d := RecordedAt(c, 0, batch, now, None);
      && ValidCheckpoint(d) && d.endpoints == [Recorded(c.endpoints[0], batch)]
      && KeepsProgress(c.endpoints[0], d.endpoints[0])
      && d.endpoints[0].completed.Keys == c.endpoints[0].completed.Keys + Elems(Ports(batch))
      && Elems(Ports(batch)) !! c.endpoints[0].completed.Keys
  {
    var q := Recorded(c.endpoints[0], batch);
    CommitKeepsProgress(c.endpoints[0], batch);
    RecordedIsValid(c.endpoints[0], batch, c.plan);
    ReplacedIsValid(c, 0, q, |batch|, now, None);
    assert c.endpoints[0 := q] == [q];
  }

  lemma CommitMove(c: Checkpoint, log: seq<Entry>, batch: seq<PortResult>, now: int)
    requires StoreInv(c, log) && c.status != Completed && c.createdAt <= now && Appendable(c.endpoints[0], batch)
    ensures var d := RecordedAt(c, 0, batch, now, None);
      StoreInv(d, log + ConfirmedAll(batch)) && Keeps(Some(c), Some(d))
  {
    CommittedIsSuccessor(c, batch, now);
    BatchInHistory(c.plan, log, batch);
    HoldsBatch(c.endpoints[0], log, batch);
  }

  lemma CommitStep(limit: int, w: World, step: Step)
    requires Inv(limit, w) && Enabled(limit, w, step) && step.Commit? && limit >= 1
    ensures Inv(limit, Apply(limit, w, step)) && Keeps(w.store, Apply(limit, w, step).store)
  {
    var p, ph := Endpoint(w), w.proc.phase;
    ScanPhase.BatchIsAcceptable(p, ph, limit);
    ScanPhase.CommitInv(p, ph, limit, w.store.value.plan);
    CommitMove(w.store.value, w.log, ph.inflight, step.now);
  }

  /** Recording a banner that is not recorded yet changes the banner of that result and nothing else. */
  lemma BannerKeepsProgress(p: Progress, port: int, banner: Option<string>)
    requires port in p.completed && port !in p.banners && p.error == None
    ensures KeepsProgress(p, WithBanner(p, port, banner))
    ensures WithBanner(p, port, banner).completed.Keys == p.completed.Keys
    ensures WithBanner(p, port, banner).(error := p.error) == WithBanner(p, port, banner)
  {
  }

  lemma BannerEntry(plan: Plan, log: seq<Entry>, port: int, banner: Option<string>)
    requires OnceEach(log) && AsksTheRest(plan, log) && port !in BanneredIn(log)
    ensures var all := log + [Bannered(port, banner)];
      && OnceEach(all) && AsksTheRest(plan, all) && Units(all) == Units(log) + 1
      && ConfirmedIn(all) == ConfirmedIn(log) && BanneredIn(all) == BanneredIn(log) + {port}
  {
    OneEntry(Bannered(port, banner));
    HistoryGrows(plan, log, [Bannered(port, banner)]);
  }

  lemma HoldsBanner(p: Progress, log: seq<Entry>, port: int, banner: Option<string>)
    requires HoldsLog(p, log) && port in p.completed && BanneredIn(log) == p.banners && port !in p.banners
    ensures HoldsLog(WithBanner(p, port, banner), log + [Bannered(port, banner)])
  {
    var q, all := WithBanner(p, port, banner), log + [Bannered(port, banner)];
    forall k | 0 <= k < |log| && log[k].Bannered? ensures log[k].port != port {
      assert log[k].port in BanneredIn(log);
    }
    assert forall k :: 0 <= k < |log| ==> all[k] == log[k];
  }

  /** A whole checkpoint that changes the error of the endpoint only. */
  lemma HoldsError(p: Progress, log: seq<Entry>, error: Option<string>, e: Entry)
    requires HoldsLog(p, log) && !e.Confirmed? && !e.Bannered?
    ensures HoldsLog(WithError(p, error), log + [e])
  {
    assert forall k :: 0 <= k < |log| ==> (log + [e])[k] == log[k];
  }

  /** The checkpoint with the banner of an open port of the one endpoint recorded is valid. */
  lemma BanneredIsSuccessor(c: Checkpoint, port: int, banner: Option<string>, now: int)
    requires ValidCheckpoint(c) && |c.endpoints| == 1 && c.endpoints[0].error == None && c.createdAt <= now
    requires port in OpenPorts(c.endpoints[0]) - c.endpoints[0].banners && c.plan.bannerGrab
    requires banner.Some? ==> |banner.value| <= MAX_BANNER_LENGTH
    ensures var d := BanneredAt(c, 0, port, banner, now);
      && ValidCheckpoint(d) && d.endpoints == [WithBanner(c.endpoints[0], port, banner)]
      && KeepsProgress(c.endpoints[0], d.endpoints[0]) && d.endpoints[0].completed.Keys == c.endpoints[0].completed.Keys
  {
    BannerKeepsProgress(c.endpoints[0], port, banner);
    BanneredIsValidExactly(c, 0, port, banner, now);
  }

  lemma BannerMove(c: Checkpoint, log: seq<Entry>, port: int, banner: Option<string>, now: int)
    requires StoreInv(c, log) && c.status != Completed && c.endpoints[0].error == None && c.createdAt <= now
    requires port in OpenPorts(c.endpoints[0]) - c.endpoints[0].banners && c.plan.bannerGrab
    requires banner.Some? ==> |banner.value| <= MAX_BANNER_LENGTH
    ensures var d := BanneredAt(c, 0, port, banner, now);
      && StoreInv(d, log + [Bannered(port, banner)]) && Keeps(Some(c), Some(d))
      && d.endpoints == [WithBanner(c.endpoints[0], port, banner)]
  {
    BanneredIsSuccessor(c, port, banner, now);
    BannerEntry(c.plan, log, port, banner);
    HoldsBanner(c.endpoints[0], log, port, banner);
  }

  /** What is left of the banner phase after one banner. */
  lemma BannersLeft(p: Progress, port: int, banner: Option<string>)
    requires port in OpenPorts(p) - p.banners
    ensures var q := WithBanner(p, port, banner);
      q.pending == p.pending && q.error == None && OpenPorts(q) - q.banners == OpenPorts(p) - p.banners - {port}
  {
    assert OpenPorts(WithBanner(p, port, banner)) == OpenPorts(p);
  }

  lemma BannerStep(limit: int, w: World, step: Step)
    requires Inv(limit, w) && Enabled(limit, w, step) && step.RecordBanner? && limit >= 1
    ensures Inv(limit, Apply(limit, w, step)) && Keeps(w.store, Apply(limit, w, step).store)
  {
    BannerMove(w.store.value, w.log, step.port, step.banner, step.now);
    BannersLeft(Endpoint(w), step.port, step.banner);
  }

  lemma CompletedStep(limit: int, w: World, step: Step)
    requires Inv(limit, w) && Enabled(limit, w, step) && step.PersistCompleted? && limit >= 1
    ensures Inv(limit, Apply(limit, w, step)) && Keeps(w.store, Apply(limit, w, step).store)
  {
    assert WithError(Endpoint(w), None) == Endpoint(w);
    PlainMove(w.store.value, w.log, None, Completed, None, step.now, Terminated);
  }

  lemma FaultStep(limit: int, w: World, step: Step)
    requires Inv(limit, w) && Enabled(limit, w, step) && step.PersistFault? && limit >= 1
    ensures Inv(limit, Apply(limit, w, step)) && Keeps(w.store, Apply(limit, w, step).store)
  {
    var text := Some(w.proc.fault.text);
    assert WithError(Endpoint(w), None) == Endpoint(w);
    PlainMove(w.store.value, w.log, if w.proc.fault.CancelFault? then None else text,
              if w.proc.fault.CancelFault? then Cancelled else Failed, text, step.now, Terminated);
  }

  lemma ScanStep(limit: int, w: World, step: Step)
    requires Inv(limit, w) && Enabled(limit, w, step) && limit >= 1
    requires InScan(step)
    ensures Inv(limit, Apply(limit, w, step)) && Apply(limit, w, step).store == w.store
  {
    var p, ph := Endpoint(w), w.proc.phase;
    if step.Accept? {
      ScanPhase.AcceptInv(p, ph, step.result, limit);
    } else if step.FlusherTake? {
      ScanPhase.TakeInv(p, ph, ScanPhase.Flusher, limit);
    } else if step.CommitFails? {
      ScanPhase.CommitFailedInv(p, ph, limit);
    } else if step.FinalTake? {
      ScanPhase.TakeInv(p, ph, ScanPhase.Final, limit);
    } else {
      assert ScanPhase.Unconfirmed(Apply(limit, w, step).proc.phase) == ScanPhase.Unconfirmed(ph);
    }
  }

  lemma ControlStep(limit: int, w: World, step: Step)
    requires Inv(limit, w) && Enabled(limit, w, step) && limit >= 1 && !Durable(step)
    requires !InScan(step)
    ensures Inv(limit, Apply(limit, w, step)) && Apply(limit, w, step).store == w.store
  {
    if step.BeginScan? {
      var c, p := w.store.value, Endpoint(w);
      ScanPhase.BeginInv(p, limit);
      assert p.pending == c.plan.ports - ConfirmedIn(w.log) by { assert AccountsFor(p, c.plan); }
      RequestEntry(c.plan, w.log, p.pending);
      HoldsError(p, w.log, p.error, Requested(p.pending));
      assert WithError(p, p.error) == p;
    }
  }

  lemma StepKeepsInv(limit: int, w: World, step: Step)
    requires Inv(limit, w) && Enabled(limit, w, step) && limit >= 1
    ensures Inv(limit, Apply(limit, w, step)) && Keeps(w.store, Apply(limit, w, step).store)
  {
    if step.Create? {
      CreateStep(limit, w, step);
    } else if step.ToRunning? {
      ToRunningStep(limit, w, step);
    } else if step.Commit? {
      CommitStep(limit, w, step);
    } else if step.RecordBanner? {
      BannerStep(limit, w, step);
    } else if step.PersistCompleted? {
      CompletedStep(limit, w, step);
    } else if step.PersistFault? {
      FaultStep(limit, w, step);
    } else {
      KeepsReflexive(w.store);
      if InScan(step) {
        ScanStep(limit, w, step);
      } else {
        ControlStep(limit, w, step);
      }
    }
  }

  // ---------- Whole runs ----------

  predicate Legal(limit: int, w: World, steps: seq<Step>)
    decreases |steps|
  {
    steps == [] || (Enabled(limit, w, steps[0]) && Legal(limit, Apply(limit, w, steps[0]), steps[1..]))
  }

  function Execute(limit: int, w: World, steps: seq<Step>): World
    requires Legal(limit, w, steps)
    decreases |steps|
  {
    if steps == [] then w else Execute(limit, Apply(limit, w, steps[0]), steps[1..])
  }

  /** One more step at the end of a run. */
  lemma {:induction false} RunsOn(limit: int, w: World, steps: seq<Step>, step: Step)
    requires Legal(limit, w, steps) && Enabled(limit, Execute(limit, w, steps), step)
    ensures Legal(limit, w, steps + [step])
    ensures Execute(limit, w, steps + [step]) == Apply(limit, Execute(limit, w, steps), step)
    decreases |steps|
  {
    if steps != [] {
      RunsOn(limit, Apply(limit, w, steps[0]), steps[1..], step);
      assert (steps + [step])[1..] == steps[1..] + [step];
    } else {
      assert ([] + [step])[1..] == [];
    }
  }

  lemma {:induction false} RunKeepsInv(limit: int, w: World, steps: seq<Step>)
    requires Inv(limit, w) && Legal(limit, w, steps) && limit >= 1
    ensures Inv(limit, Execute(limit, w, steps)) && Keeps(w.store, Execute(limit, w, steps).store)
    decreases |steps|
  {
    if steps == [] {
      KeepsReflexive(w.store);
    } else {
      StepKeepsInv(limit, w, steps[0]);
      var next := Apply(limit, w, steps[0]);
      RunKeepsInv(limit, next, steps[1..]);
      KeepsTransitive(w.store, next.store, Execute(limit, next, steps[1..]).store);
    }
  }

  lemma {:induction false} RunSplits(limit: int, w: World, steps: seq<Step>)
    requires Legal(limit, w, steps) && steps != []
    ensures var front := steps[..|steps| - 1];
      && Legal(limit, w, front) && Enabled(limit, Execute(limit, w, front), steps[|steps| - 1])
      && Execute(limit, w, steps) == Apply(limit, Execute(limit, w, front), steps[|steps| - 1])
    decreases |steps|
  {
    if |steps| == 1 {
      assert steps[..0] == [] && steps[1..] == [];
    } else {
      RunSplits(limit, Apply(limit, w, steps[0]), steps[1..]);
      assert steps[..|steps| - 1][1..] == steps[1..][..|steps| - 2];
    }
  }

  /** A longer run keeps what a shorter one confirmed. */
  lemma {:induction false} LongerRunKeeps(limit: int, steps: seq<Step>, longer: seq<Step>)
    requires Legal(limit, EMPTY_WORLD, steps) && Legal(limit, EMPTY_WORLD, longer) && steps <= longer && limit >= 1
    ensures Keeps(Execute(limit, EMPTY_WORLD, steps).store, Execute(limit, EMPTY_WORLD, longer).store)
    decreases |longer|
  {
    if steps == longer {
      KeepsReflexive(Execute(limit, EMPTY_WORLD, steps).store);
    } else {
      var n := |longer| - 1;
      RunSplits(limit, EMPTY_WORLD, longer);
      LongerRunKeeps(limit, steps, longer[..n]);
      RunKeepsInv(limit, EMPTY_WORLD, longer[..n]);
      StepKeepsInv(limit, Execute(limit, EMPTY_WORLD, longer[..n]), longer[n]);
      KeepsTransitive(Execute(limit, EMPTY_WORLD, steps).store, Execute(limit, EMPTY_WORLD, longer[..n]).store,
                      Execute(limit, EMPTY_WORLD, longer).store);
    }
  }

  /** Safety over whole runs, with any number of crashes, cancellations, failures and resumes.  Every plan port is
      confirmed at most once and every banner recorded at most once; each scan was asked for exactly the ports of the
      plan not confirmed before it; every result is as it was confirmed, with the banner that was recorded; the sequence
      is the number of running transitions, results, banners and terminal checkpoints; a COMPLETED session has every
      port of the plan confirmed, exactly once. */
  lemma RunsAreSafe(limit: int, steps: seq<Step>)
    requires Legal(limit, EMPTY_WORLD, steps) && limit >= 1
    ensures var w := Execute(limit, EMPTY_WORLD, steps);
      w.store.Some? ==>
        && var c := w.store.value;
           && ValidCheckpoint(c) && |c.endpoints| == 1 && OnceEach(w.log) && AsksTheRest(c.plan, w.log)
           && ConfirmedIn(w.log) == c.endpoints[0].completed.Keys <= c.plan.ports
           && BanneredIn(w.log) == c.endpoints[0].banners && HoldsLog(c.endpoints[0], w.log)
           && c.sequence == Units(w.log)
           && (c.status == Completed ==> ConfirmedIn(w.log) == c.plan.ports)
  {
    RunKeepsInv(limit, EMPTY_WORLD, steps);
    var w := Execute(limit, EMPTY_WORLD, steps);
    if w.store.Some? {
      assert AccountsFor(w.store.value.endpoints[0], w.store.value.plan);
    }
  }

  /** Where the requested ports are: not reported yet, waiting for a commit, dropped by a failed one, or confirmed since
      the scan began; and the pending ones of the store are all but the last. */
  predicate Conserved(limit: int, p: Progress, ph: ScanPhase.Phase) {
    var waiting, confirmed := Elems(Ports(ScanPhase.Unconfirmed(ph))), ph.request * p.completed.Keys;
    && ph.request == ph.pending + waiting + ph.dropped + confirmed
    && |ph.request| == |ph.pending| + |ScanPhase.Unconfirmed(ph)| + |ph.dropped| + |confirmed|
    && p.pending == ph.pending + waiting + ph.dropped
    && |ScanPhase.Unconfirmed(ph)| <= limit
    && (ph.holder != ScanPhase.Free ==> 0 < |ph.inflight| <= limit && Appendable(p, ph.inflight))
  }

  /** During a scan nothing asked for is lost or counted twice, and a crash costs at most one batch. */
  lemma ScanConserves(limit: int, steps: seq<Step>)
    requires Legal(limit, EMPTY_WORLD, steps) && limit >= 1
    ensures var w := Execute(limit, EMPTY_WORLD, steps);
      w.proc.Scanning? ==>
        w.store.Some? && |w.store.value.endpoints| == 1 && Conserved(limit, w.store.value.endpoints[0], w.proc.phase)
  {
    RunKeepsInv(limit, EMPTY_WORLD, steps);
    var w := Execute(limit, EMPTY_WORLD, steps);
    if w.proc.Scanning? {
      ScanPhase.AtMostOneBatchUnconfirmed(Endpoint(w), w.proc.phase, limit);
      ScanPhase.RequestIsConserved(Endpoint(w), w.proc.phase, limit);
      if w.proc.phase.holder != ScanPhase.Free {
        ScanPhase.BatchIsAcceptable(Endpoint(w), w.proc.phase, limit);
      }
    }
  }
}
