/** The single-target runner as the object that changes the store: `create`, `resume` and the two phases, over the v2
    store object.  A ghost trace records which step of the `SingleRunner` machine each action is, so everything proved
    about the machine's runs holds of this object. */
module SessionRuntime {
  import opened Common
  import opened Session
  import opened StoreV2Tables
  import opened StoreV2
  import opened StoreV2Increments
  import opened ScanPhase
  import opened SessionChanges
  import opened ExecutorScript
  import opened RunnerCalls
  import R = SingleRunner
  import V1 = StoreV1
  import Calls = SingleRunnerStore

  datatype Failure = NoSession | ScopeRejected | SessionExists | PlanMismatch | BadClock | RunRaised(fault: Fault)

  /** The caller expects another plan than the session's. */
  predicate OtherPlan(expected: Option<Plan>, c: Checkpoint) {
    expected.Some? && PlanDigest(expected.value) != PlanDigest(c.plan)
  }

  /** An unfinished session that a resume with this plan and clock sets RUNNING. */
  predicate Resumable(store: Option<Checkpoint>, expected: Option<Plan>, clock: Clock) {
    && store.Some? && store.value.status != Completed && !OtherPlan(expected, store.value)
    && store.value.createdAt <= clock.running && |store.value.endpoints| == 1
  }

  ghost predicate Reached(limit: int, trace: seq<R.Step>, w: R.World) {
    R.Legal(limit, R.EMPTY_WORLD, trace) && w == R.Execute(limit, R.EMPTY_WORLD, trace)
  }

  /** A whole checkpoint the runner persists is valid, accepted, and loads as the machine's next state. */
  lemma PersistAccepted(limit: int, trace: seq<R.Step>, w: R.World, step: R.Step, t: Tables)
    requires Reached(limit, trace, w) && limit >= 1 && Holds(SingleTarget, t, w.store)
    requires R.Enabled(limit, w, step) && R.Durable(step) && !step.Commit? && !step.RecordBanner?
    ensures var after := R.Apply(limit, w, step).store;
      && after.Some? && ValidCheckpoint(after.value) && PlanAllowed(SingleTarget, after.value.plan)
      && PersistTx(t, after.value).Ok? && Holds(SingleTarget, PersistTx(t, after.value).value, after)
  {
    R.RunKeepsInv(limit, R.EMPTY_WORLD, trace);
    Calls.OtherSucceeds(limit, w, step, t);
    R.StepKeepsInv(limit, w, step);
  }

  /** A port of the banner phase is open, confirmed and has no banner, in a running session. */
  lemma BannerWaits(limit: int, trace: seq<R.Step>, w: R.World, port: int)
    requires Reached(limit, trace, w) && limit >= 1 && w.store.Some? && |w.store.value.endpoints| == 1
    requires w.proc.Bannering? && port in w.proc.todo
    ensures var c := w.store.value;
      && !Terminal(c.status) && c.plan.bannerGrab && port in OpenPorts(c.endpoints[0]) - c.endpoints[0].banners
  {
    R.RunKeepsInv(limit, R.EMPTY_WORLD, trace);
  }

  lemma BannerAccepted(limit: int, t: Tables, c: Checkpoint, port: int, banner: Option<string>, now: int)
    requires Holds(SingleTarget, t, Some(c)) && |c.endpoints| == 1 && !Terminal(c.status) && c.plan.bannerGrab
    requires port in OpenPorts(c.endpoints[0]) - c.endpoints[0].banners
    ensures var result := BannerTx(SingleTarget, t, c.endpoints[0].identity, port, banner, now);
      && (result.Ok? <==> c.updatedAt <= now && (banner.Some? ==> |banner.value| <= MAX_BANNER_LENGTH))
      && (result.Ok? ==> Holds(SingleTarget, result.value, Some(BanneredAt(c, 0, port, banner, now))))
  {
    RowOf(SingleTarget, t, c, 0);
    assert port in t.endpoints[0].results by { assert port in c.endpoints[0].completed; }
    BannerAcceptsExactly(SingleTarget, t, c.endpoints[0].identity, port, banner, now);
    if c.updatedAt <= now && (banner.Some? ==> |banner.value| <= MAX_BANNER_LENGTH) {
      BannerSucceeds(SingleTarget, limit, t, c, 0, port, banner, now);
    }
  }

  /** What the invariant of the machine says at the points where the runner looks. */
  lemma AtRest(limit: int, trace: seq<R.Step>, w: R.World)
    requires Reached(limit, trace, w) && limit >= 1 && w.store.Some?
    ensures var c := w.store.value;
      && ValidCheckpoint(c) && |c.endpoints| == 1 && (w.proc.Resumed? ==> w.proc.loaded == c)
      && (w.proc.Scanning? ==> ScanPhase.Inv(c.endpoints[0], w.proc.phase, limit))
  {
    R.RunKeepsInv(limit, R.EMPTY_WORLD, trace);
  }

  /** The store takes a batch exactly when the clock has not gone back, and then loads as the machine's next state. */
  lemma CommitAccepted(limit: int, trace: seq<R.Step>, w: R.World, t: Tables, now: int)
    requires Reached(limit, trace, w) && limit >= 1 && Holds(SingleTarget, t, w.store)
    requires w.store.Some? && w.proc.Scanning? && w.proc.phase.holder != Free && |w.store.value.endpoints| == 1
    ensures var c, batch := w.store.value, w.proc.phase.inflight;
      var result := AppendTx(SingleTarget, limit, t, c.endpoints[0].identity, batch, now, Running, None);
      && (result.Ok? <==> c.updatedAt <= now)
      && (result.Ok? ==> Holds(SingleTarget, result.value, Some(RecordedAt(c, 0, batch, now, None))))
    ensures ValidProgress(w.store.value.endpoints[0]) && Appendable(w.store.value.endpoints[0], w.proc.phase.inflight)
  {
    R.RunKeepsInv(limit, R.EMPTY_WORLD, trace);
    var c, ph := w.store.value, w.proc.phase;
    BatchIsAcceptable(c.endpoints[0], ph, limit);
    AppendAcceptsExactly(SingleTarget, limit, t, c.endpoints[0].identity, ph.inflight, now, Running, None);
    if c.updatedAt <= now {
      AppendSucceeds(SingleTarget, limit, t, c, 0, ph.inflight, now);
    }
  }

  class SingleTargetSessionRunner {
    const store: SessionStoreV2
    // the scan phase's shared variables
    var pending: set<int>
    var seen: set<int>
    var buffered: seq<PortResult>
    var flushFailed: bool
    ghost var world: R.World
    ghost var trace: seq<R.Step>

    ghost function Limit(): int { BatchLimit(store.durability) }

    /** The object is in the state that its trace leads to. */
    ghost predicate Traced()
      reads this
    {
      Reached(Limit(), trace, world)
    }

    ghost predicate Valid()
      reads this, store
    {
      && store.Valid() && store.mode == SingleTarget
      && Traced() && Holds(SingleTarget, store.db, world.store)
    }

    /** The shared variables of a running scan are the ones of the machine, with the lock free. */
    ghost predicate InScan()
      reads this
    {
      && world.store.Some? && |world.store.value.endpoints| == 1 && world.proc.Scanning?
      && var ph := world.proc.phase;
         && ph.pending == pending && ph.seen == seen && ph.buffered == buffered && ph.flushFailed == flushFailed
         && ph.holder == Free && !ph.failing && (ph.stage == Raised ==> ph.buffered == [])
    }

    constructor (durability: Durability)
      ensures Valid() && fresh(store) && world == R.EMPTY_WORLD && store.durability == durability
    {
      store := new SessionStoreV2(SingleTarget, durability);
      pending, seen, buffered, flushFailed := {}, {}, [], false;
      world, trace := R.EMPTY_WORLD, [];
    }

    /** A new process on the database that any run of earlier processes has left, wherever the last of them died. */
    constructor Reopen(durability: Durability, tables: Tables, migrations: map<int, V1.Pointer>,
                       ghost steps: seq<R.Step>)
      requires R.Legal(BatchLimit(durability), R.EMPTY_WORLD, steps)
      requires Holds(SingleTarget, tables, R.Execute(BatchLimit(durability), R.EMPTY_WORLD, steps).store)
      ensures Valid() && fresh(store) && store.db == tables && store.durability == durability
      ensures world.proc.Down? && trace == steps + [R.Crash]
      ensures world.store == R.Execute(BatchLimit(durability), R.EMPTY_WORLD, steps).store
    {
      SoundIsOpenable(SingleTarget, tables);
      R.RunsOn(BatchLimit(durability), R.EMPTY_WORLD, steps, R.Crash);
      store := new SessionStoreV2.Open(SingleTarget, durability, tables, migrations);
      pending, seen, buffered, flushFailed := {}, {}, [], false;
      trace := steps + [R.Crash];
      world := R.Execute(BatchLimit(durability), R.EMPTY_WORLD, steps + [R.Crash]);
    }

    ghost method Do(step: R.Step)
      requires Traced() && R.Enabled(Limit(), world, step)
      modifies this`world, this`trace
      ensures Traced()
      ensures world == R.Apply(Limit(), old(world), step) && trace == old(trace) + [step]
    {
      R.RunsOn(Limit(), R.EMPTY_WORLD, trace, step);
      world := R.Apply(Limit(), world, step);
      trace := trace + [step];
    }

    /** Saves a fresh session; refused outside the single-target scope or over an existing session. */
    method Create(plan: Plan, sessionId: int, now: int) returns (r: Result<Checkpoint, Failure>)
      requires Valid() && ValidPlan(plan) && world.proc.Down?
      modifies this, store
      ensures Valid() && world.proc.Down? && old(trace) <= trace
      ensures r.Ok? <==> PlanAllowed(SingleTarget, plan) && old(world.store).None?
      ensures r.Err? ==> r.error == if PlanAllowed(SingleTarget, plan) then SessionExists else ScopeRejected
      ensures r.Ok? ==> world.store == Some(r.value) && NewSession(r.value, sessionId, plan, now)
      ensures r.Err? ==> store.db == old(store.db) && world == old(world)
    {
      if !PlanAllowed(SingleTarget, plan) {
        return Err(ScopeRejected);
      }
      var taken := store.HasCheckpoint();
      if taken {
        return Err(SessionExists);
      }
      var checkpoint := CreatedCheckpoint(sessionId, plan, now);
      ghost var step := R.Create(sessionId, plan, now);
      CreatedIsValid(sessionId, plan, now);
      PersistAccepted(Limit(), trace, world, step, store.db);
      Do(step);
      var _ := store.Persist(checkpoint);
      return Ok(checkpoint);
    }

    /** Hands the buffered batch to the store.  Whoever calls holds the callback lock. */
    method Flush(id: Identity, now: int) returns (ok: bool)
      requires Valid() && world.store.Some? && world.proc.Scanning? && |world.store.value.endpoints| == 1
      requires id == R.Endpoint(world).identity
      requires world.proc.phase.holder != Free && world.proc.phase.inflight == buffered
      modifies this`buffered, this`world, this`trace, store
      ensures Valid() && old(trace) <= trace && buffered == [] && world.store.Some?
      ensures ok <==> old(world).store.value.updatedAt <= now
      ensures ok ==> world.proc == old(world).proc.(phase := Committed(old(world).proc.phase))
      ensures ok ==> world.store == Some(RecordedAt(old(world).store.value, 0, old(buffered), now, None))
      ensures ok ==> (
        var c, d := old(world).store.value, world.store.value;
        && Stamped(c, d, Running, None, |old(buffered)|, now)
        && ResultsAdded(c.endpoints[0], d.endpoints[0], old(buffered)))
      ensures |world.store.value.endpoints| == 1 && world.proc.Scanning?
      ensures StillHere(R.Endpoint(old(world)), old(buffered), old(world).proc.phase.dropped,
                        R.Endpoint(world), [], world.proc.phase.dropped)
      ensures !ok ==> world.proc == old(world).proc.(phase := CommitFailed(old(world).proc.phase))
      ensures !ok ==> world.store == old(world).store && store.db == old(store.db)
    {
      var batch := buffered;
      buffered := [];
      ghost var c, lost := world.store.value, world.proc.phase.dropped;
      CommitAccepted(Limit(), trace, world, store.db, now);
      var receipt := store.AppendResults(id, batch, now, Running, None);
      ok := receipt.Ok?;
      if ok {
        Do(R.Commit(now));
        RecordedAtContents(c, 0, batch, now);
        FlushedStillHere(c.endpoints[0], batch, lost, R.Endpoint(world));
      } else {
        Do(R.CommitFails);
        DroppedStillHere(c.endpoints[0], batch, lost);
      }
    }

    ghost function UpdatedAt(): int
      reads this
      requires world.store.Some?
    {
      world.store.value.updatedAt
    }

    ghost function Dropped(): set<int>
      reads this
      requires world.proc.Scanning?
    {
      world.proc.phase.dropped
    }

    /** A reported result is on its way, or confirmed as it was reported. */
    ghost predicate Arrived(r: PortResult)
      reads this
      requires world.store.Some? && |world.store.value.endpoints| == 1 && world.proc.Scanning?
    {
      Here(r, R.Endpoint(world), buffered, Dropped())
    }

    /** The machine's side of an accepted report. */
    ghost method Receive(result: PortResult)
      requires Traced() && world.store.Some? && |world.store.value.endpoints| == 1 && world.proc.Scanning?
      requires Accepts(world.proc.phase, R.Endpoint(world).identity, result)
      modifies this`world, this`trace
      ensures Traced() && old(trace) <= trace
      ensures world == old(world).(proc := R.Scanning(ScanPhase.Accept(old(world).proc.phase, result, Limit()),
                                                      old(world).proc.raised))
    {
      Do(R.Accept(result));
    }

    /** The part of the callback after its guards: the shared variables, then a flush when the batch is full. */
    method Enqueue(id: Identity, result: PortResult, now: int) returns (ok: bool)
      requires Valid() && InScan() && world.proc.phase.stage == Scanning && id == R.Endpoint(world).identity
      requires !flushFailed && Canonical(result, id) && result.port in pending && result.port !in seen
      modifies this`pending, this`seen, this`buffered, this`world, this`trace, store
      ensures Valid() && InScan() && world.proc.phase.stage == Scanning && old(trace) <= trace
      ensures R.Endpoint(world).identity == id && !flushFailed
      ensures pending == old(pending) - {result.port} && seen == old(seen) + {result.port}
      ensures ok <==> |old(buffered)| + 1 < Limit() || old(UpdatedAt()) <= now
      ensures ok ==> Dropped() == old(Dropped()) && (UpdatedAt() == old(UpdatedAt()) || UpdatedAt() == now)
      ensures ok ==> Arrived(result)
      ensures StillHere(R.Endpoint(old(world)), old(buffered), old(Dropped()), R.Endpoint(world), buffered, Dropped())
      ensures ok ==>
        if |old(buffered)| + 1 < Limit() then buffered == old(buffered) + [result] && store.db == old(store.db)
        else buffered == []
             && world.store == Some(RecordedAt(old(world).store.value, 0, old(buffered) + [result], now, None))
    {
      Receive(result);
      seen := seen + {result.port};
      pending := pending - {result.port};
      buffered := buffered + [result];
      ok := true;
      if |buffered| >= BatchLimit(store.durability) {
        ok := Flush(id, now);
      }
    }

    /** The executor's callback.  A result is refused exactly when a flush has failed, the cancel event is set, it is
        not canonical, its port is not pending or was seen before, or its full batch cannot be committed; a refusal
        other than the last changes nothing, and only cancellation is raised as such. */
    method Record(id: Identity, result: PortResult, now: int, cancelled: bool) returns (fault: Option<Fault>)
      requires Valid() && InScan() && world.proc.phase.stage == Scanning && id == R.Endpoint(world).identity
      modifies this`pending, this`seen, this`buffered, this`world, this`trace, store
      ensures Valid() && InScan() && world.proc.phase.stage == Scanning && old(trace) <= trace
      ensures R.Endpoint(world).identity == id && (fault.Some? ==> TextOk(fault.value))
      ensures flushFailed == old(flushFailed)
      ensures
        var accepted := !cancelled &&
          old(!flushFailed && Canonical(result, id) && result.port in pending && result.port !in seen);
        && (fault.None? <==> accepted && (|old(buffered)| + 1 < Limit() || old(UpdatedAt()) <= now))
        && (!accepted ==> world == old(world) && store.db == old(store.db))
        && (accepted ==> pending == old(pending) - {result.port} && seen == old(seen) + {result.port})
      ensures StillHere(R.Endpoint(old(world)), old(buffered), old(Dropped()), R.Endpoint(world), buffered, Dropped())
      ensures fault.None? ==> Arrived(result)
      ensures fault.None? ==> Dropped() == old(Dropped()) && (UpdatedAt() == old(UpdatedAt()) || UpdatedAt() == now)
      ensures fault.Some? ==> (
        fault.value ==
          if old(flushFailed) then ErrorFault(STORE_TEXT)
          else if cancelled then CancelFault(CANCEL_TEXT)
          else if old(Canonical(result, id) && result.port in pending && result.port !in seen)
               then ErrorFault(STORE_TEXT) else ErrorFault(GUARD_TEXT))
    {
      if flushFailed {
        return Some(ErrorFault(STORE_TEXT));
      }
      if cancelled {
        return Some(CancelFault(CANCEL_TEXT));
      }
      if !Canonical(result, id) || result.port !in pending || result.port in seen {
        return Some(ErrorFault(GUARD_TEXT));
      }
      var ok := Enqueue(id, result, now);
      return if ok then None else Some(ErrorFault(STORE_TEXT));
    }

    /** The flusher leaves with its error on record. */
    ghost method FlusherEnds()
      requires Traced() && world.store.Some? && |world.store.value.endpoints| == 1
      requires world.proc.Scanning? && world.proc.phase.failing
      modifies this`world, this`trace
      ensures Traced() && old(trace) <= trace
      ensures world ==
        old(world).(proc := R.Scanning(FlushErrorRecorded(old(world).proc.phase), old(world).proc.raised))
    {
      Do(R.FlusherFails);
    }

    /** The flusher takes what is buffered. */
    ghost method FlusherTakes()
      requires Traced() && InScan() && world.proc.phase.stage == Scanning && !flushFailed && buffered != []
      modifies this`world, this`trace
      ensures Traced() && old(trace) <= trace
      ensures world == old(world).(proc := R.Scanning(Take(old(world).proc.phase, Flusher), old(world).proc.raised))
    {
      Do(R.FlusherTake);
    }

    /** The flusher's commit of what is buffered; a failure is recorded. */
    method FlushBuffered(id: Identity, now: int)
      requires Valid() && InScan() && world.proc.phase.stage == Scanning && id == R.Endpoint(world).identity
      requires !flushFailed && buffered != []
      modifies this`buffered, this`flushFailed, this`world, this`trace, store
      ensures Valid() && old(trace) <= trace && buffered == [] && world.store.Some?
      ensures |world.store.value.endpoints| == 1 && R.Endpoint(world).identity == id
      ensures flushFailed <==> now < old(UpdatedAt())
      ensures world.proc.Scanning? &&
        StillHere(R.Endpoint(old(world)), old(buffered), old(Dropped()), R.Endpoint(world), [], Dropped())
      ensures var taken := Take(old(world).proc.phase, Flusher);
        world.proc == R.Scanning(if flushFailed then FlushErrorRecorded(CommitFailed(taken)) else Committed(taken),
                                 old(world).proc.raised)
      ensures if flushFailed then world.store == old(world).store else UpdatedAt() == now
    {
      FlusherTakes();
      var ok := Flush(id, now);
      if !ok {
        FlusherEnds();
      }
      flushFailed := !ok;
    }

    /** One turn of the periodic flusher; after a failure it stops for good. */
    method PeriodicFlush(id: Identity, now: int)
      requires Valid() && InScan() && world.proc.phase.stage == Scanning && id == R.Endpoint(world).identity
      modifies this`buffered, this`flushFailed, this`world, this`trace, store
      ensures Valid() && InScan() && world.proc.phase.stage == Scanning && old(trace) <= trace
      ensures R.Endpoint(world).identity == id
      ensures flushFailed <==> old(flushFailed) || (old(buffered) != [] && now < old(UpdatedAt()))
      ensures StillHere(R.Endpoint(old(world)), old(buffered), old(Dropped()), R.Endpoint(world), buffered, Dropped())
      ensures flushFailed ==> world.store == old(world).store
      ensures !flushFailed ==> buffered == [] && Dropped() == old(Dropped())
      ensures !flushFailed ==> UpdatedAt() == old(UpdatedAt()) || UpdatedAt() == now
    {
      if !flushFailed && buffered != [] {
        FlushBuffered(id, now);
      }
    }

    /** Persists the checkpoint of a machine step. */
    method Save(c: Checkpoint, ghost step: R.Step)
      requires Valid() && R.Enabled(Limit(), world, step)
      requires R.Durable(step) && !step.Commit? && !step.RecordBanner?
      requires R.Apply(Limit(), world, step).store == Some(c)
      modifies this`world, this`trace, store
      ensures Valid() && world == R.Apply(Limit(), old(world), step) && old(trace) <= trace
    {
      PersistAccepted(Limit(), trace, world, step, store.db);
      var _ := store.Persist(c);
      Do(step);
    }

    /** One turn of the scan; an honest one goes through. */
    method TakeTurn(id: Identity, turn: Turn) returns (raised: Option<Fault>)
      requires Valid() && InScan() && world.proc.phase.stage == Scanning && id == R.Endpoint(world).identity
      modifies this`pending, this`seen, this`buffered, this`flushFailed, this`world, this`trace, store
      ensures Valid() && InScan() && world.proc.phase.stage == Scanning && old(trace) <= trace
      ensures R.Endpoint(world).identity == id && (raised.Some? ==> TextOk(raised.value))
      ensures StillHere(R.Endpoint(old(world)), old(buffered), old(Dropped()), R.Endpoint(world), buffered, Dropped())
      ensures raised.None? ==>
        && Admitted(turn, id, old(pending), old(seen)) && (turn.Reported? ==> Arrived(turn.result))
        && pending == old(pending) - PortOf(turn) && seen == old(seen) + PortOf(turn)
      ensures turn.Ticked? ==> flushFailed || buffered == []
      ensures old(!flushFailed && pending !! seen && Honest([turn], id, pending, UpdatedAt())) ==>
        && raised.None? && !flushFailed && pending == AfterTurn(old(pending), turn) && pending !! seen
        && Dropped() == old(Dropped()) && (UpdatedAt() == old(UpdatedAt()) || UpdatedAt() == turn.now)
    {
      assert [turn][0] == turn;
      match turn {
        case Reported(result, now, cancelled) => raised := Record(id, result, now, cancelled);
        case Ticked(now) =>
          PeriodicFlush(id, now);
          raised := None;
      }
    }

    /** What a scan whose reports were honest so far has left to do. */
    ghost predicate OnTrack(id: Identity, rest: seq<Turn>, left: set<int>, last: int)
      reads this
    {
      && InScan() && !flushFailed && pending !! seen && Dropped() == {} && UpdatedAt() <= last
      && Honest(rest, id, pending, UpdatedAt()) && pending - ReportedPorts(rest) == left
      && forall k :: 0 <= k < |rest| ==> rest[k].now <= last
    }

    /** The callback has taken all these reports, and lost none of them. */
    ghost predicate Taken(turns: seq<Turn>, id: Identity, asked: set<int>, known: set<int>, marked: set<int>)
      reads this
    {
      && InScan() && Clean(turns, id, asked, known) && R.Endpoint(world).banners == marked
      && AllHere(turns, R.Endpoint(world), buffered, Dropped())
      && pending == asked - ReportedPorts(turns) && seen == known + ReportedPorts(turns)
    }

    lemma TakenNext(turns: seq<Turn>, n: nat, id: Identity, asked: set<int>, known: set<int>, marked: set<int>,
                    p: Progress, was: seq<PortResult>, lost: set<int>)
      requires n < |turns| && Clean(turns[..n], id, asked, known) && AllHere(turns[..n], p, was, lost)
      requires p.banners == marked
      requires InScan() && StillHere(p, was, lost, R.Endpoint(world), buffered, Dropped())
      requires turns[n].Reported? ==> Arrived(turns[n].result)
      requires Admitted(turns[n], id, asked - ReportedPorts(turns[..n]), known + ReportedPorts(turns[..n]))
      requires pending == asked - ReportedPorts(turns[..n]) - PortOf(turns[n])
      requires seen == known + ReportedPorts(turns[..n]) + PortOf(turns[n])
      ensures Taken(turns[..n + 1], id, asked, known, marked)
    {
      ReportedNext(turns, n);
      CleanNext(turns, n, id, asked, known);
      assert forall k :: 0 <= k < n ==> turns[..n + 1][k] == turns[..n][k];
    }

    /** The next turn of a scan; an honest scan stays on track. */
    method NextTurn(id: Identity, turns: seq<Turn>, n: nat, ghost asked: set<int>, ghost known: set<int>,
                    ghost marked: set<int>, ghost left: set<int>, ghost last: int)
      returns (raised: Option<Fault>)
      requires Valid() && InScan() && world.proc.phase.stage == Scanning && id == R.Endpoint(world).identity
      requires n < |turns| && Taken(turns[..n], id, asked, known, marked)
      modifies this`pending, this`seen, this`buffered, this`flushFailed, this`world, this`trace, store
      ensures Valid() && InScan() && world.proc.phase.stage == Scanning && old(trace) <= trace
      ensures R.Endpoint(world).identity == id && (raised.Some? ==> TextOk(raised.value))
      ensures raised.None? ==> Taken(turns[..n + 1], id, asked, known, marked)
      ensures turns[n].Ticked? ==> flushFailed || buffered == []
      ensures old(OnTrack(id, turns[n..], left, last)) ==> raised.None? && OnTrack(id, turns[n + 1..], left, last)
    {
      ghost var track, from, before := OnTrack(id, turns[n..], left, last), UpdatedAt(), pending;
      ghost var p, was, lost := R.Endpoint(world), buffered, Dropped();
      raised := TakeTurn(id, turns[n]);
      if raised.None? {
        TakenNext(turns, n, id, asked, known, marked, p, was, lost);
      }
      if track {
        assert turns[n..][1..] == turns[n + 1..];
        HonestTail(turns[n..], id, before, from, UpdatedAt());
      }
    }

    /** Turn after turn until the callback raises; an honest scan stays on track to its end. */
    method RunTurns(id: Identity, turns: seq<Turn>, ghost left: set<int>, ghost last: int)
      returns (raised: Option<Fault>)
      requires Valid() && InScan() && world.proc.phase.stage == Scanning && id == R.Endpoint(world).identity
      modifies this`pending, this`seen, this`buffered, this`flushFailed, this`world, this`trace, store
      ensures Valid() && InScan() && world.proc.phase.stage == Scanning && old(trace) <= trace
      ensures R.Endpoint(world).identity == id && (raised.Some? ==> TextOk(raised.value))
      ensures raised.None? ==> Taken(turns, id, old(pending), old(seen), old(R.Endpoint(world).banners))
      ensures turns != [] && turns[|turns| - 1].Ticked? && raised.None? ==> flushFailed || buffered == []
      ensures old(OnTrack(id, turns, left, last)) ==> raised.None? && OnTrack(id, [], left, last)
    {
      raised := None;
      ghost var kept, asked, known, marked := OnTrack(id, turns, left, last), pending, seen, R.Endpoint(world).banners;
      var n := 0;
      assert turns[0..] == turns;
      while n < |turns| && raised.None?
        invariant n <= |turns| && Valid() && InScan() && world.proc.phase.stage == Scanning && old(trace) <= trace
        invariant R.Endpoint(world).identity == id && (raised.Some? ==> TextOk(raised.value))
        invariant raised.None? ==> Taken(turns[..n], id, asked, known, marked)
        invariant raised.None? && n > 0 && turns[n - 1].Ticked? ==> flushFailed || buffered == []
        invariant kept ==> raised.None? && OnTrack(id, turns[n..], left, last)
      {
        raised := NextTurn(id, turns, n, asked, known, marked, left, last);
        n := n + 1;
      }
      assert turns[..|turns|] == turns;
    }

    /** The reports and flusher turns of the scan, in the order they get the lock, until the callback raises.  With
        honest reports the callback never raises, however the executor ends: what it raises is its own. */
    method RunScan(id: Identity, executor: Executor) returns (raised: Option<Fault>)
      requires Valid() && InScan() && world.proc.phase.stage == Scanning && id == R.Endpoint(world).identity
      requires WellFormed(executor)
      modifies this`pending, this`seen, this`buffered, this`flushFailed, this`world, this`trace, store
      ensures Valid() && InScan() && world.proc.phase.stage == Scanning && old(trace) <= trace
      ensures R.Endpoint(world).identity == id && (raised.Some? ==> TextOk(raised.value))
      ensures old(!flushFailed && pending !! seen && Dropped() == {} && HonestScan(executor, id, pending, UpdatedAt()))
              ==> && raised == executor.raised && !flushFailed
                  && Taken(executor.turns, id, old(pending), old(seen), old(R.Endpoint(world).banners))
                  && Dropped() == {} && UpdatedAt() <= executor.lastFlush
      ensures raised.None? ==>
        && executor.raised.None?
        && Taken(executor.turns, id, old(pending), old(seen), old(R.Endpoint(world).banners))
    {
      ghost var left := pending - ReportedPorts(executor.turns);
      raised := RunTurns(id, executor.turns, left, executor.lastFlush);
      if raised.None? {
        raised := executor.raised;
      }
      assert ReportedPorts([]) == {};
    }

    /** Ends the scan phase with a fault, which the caller records. */
    method EndScan(fault: Fault)
      requires Valid() && world.store.Some? && |world.store.value.endpoints| == 1 && world.proc.Scanning?
      requires RaisesAfter(R.Endpoint(world), world.proc.phase, world.proc.raised, fault) && TextOk(fault)
      modifies this`world, this`trace
      ensures Valid() && world == old(world).(proc := R.Failing(fault)) && old(trace) <= trace
    {
      Do(R.ScanFails(fault));
    }

    /** Where a phase leaves the runner: past the scan with nothing pending, or about to record its fault. */
    ghost predicate AfterPhase(fault: Option<Fault>)
      reads this
    {
      && world.store.Some? && |world.store.value.endpoints| == 1
      && match fault
         case None => R.Endpoint(world).pending == {} && world.proc == R.AfterScan(world.store.value, R.Endpoint(world))
         case Some(f) => world.proc == R.Failing(f) && TextOk(f)
    }

    /** The executor has returned and the flusher is gone. */
    ghost method JoinFlusher(raised: Option<Fault>)
      requires Valid() && InScan() && world.proc.phase.stage == Scanning && (raised.Some? ==> TextOk(raised.value))
      modifies this`world, this`trace
      ensures Valid() && old(trace) <= trace
      ensures world == old(world).(proc := R.Scanning(old(world).proc.phase.(stage := Joined), raised))
    {
      Do(R.ScanReturns(raised));
      Do(R.Join);
    }

    /** The flush after the flusher is gone; when it fails it raises. */
    method FlushRest(id: Identity, now: int) returns (ok: bool)
      requires Valid() && world.store.Some? && |world.store.value.endpoints| == 1 && id == R.Endpoint(world).identity
      requires world.proc.Scanning? && FinalCanTake(world.proc.phase) && world.proc.phase.buffered == buffered
      modifies this`buffered, this`world, this`trace, store
      ensures Valid() && old(trace) <= trace && buffered == [] && world.store.Some?
      ensures |world.store.value.endpoints| == 1
      ensures ok <==> old(UpdatedAt()) <= now
      ensures ok ==> UpdatedAt() == now
      ensures var taken := Take(old(world).proc.phase, Final);
        world.proc == R.Scanning(if ok then Committed(taken) else CommitFailed(taken), old(world).proc.raised)
      ensures StillHere(R.Endpoint(old(world)), old(buffered), old(Dropped()), R.Endpoint(world), [], Dropped())
    {
      Do(R.FinalTake);
      ok := Flush(id, now);
    }

    /** The scan has returned: stop and join the flusher, and flush what is left unless a flush has failed. */
    method LastFlush(id: Identity, raised: Option<Fault>, now: int) returns (ok: bool)
      requires Valid() && InScan() && world.proc.phase.stage == Scanning && id == R.Endpoint(world).identity
      requires raised.Some? ==> TextOk(raised.value)
      modifies this`buffered, this`world, this`trace, store
      ensures Valid() && old(trace) <= trace && world.store.Some? && |world.store.value.endpoints| == 1
      ensures world.proc.Scanning? && Over(world.proc.phase) && world.proc.raised == raised
      ensures ok ==> Drained(world.proc.phase) && !world.proc.phase.flushFailed && !flushFailed && buffered == []
      ensures !ok ==> world.proc.phase.stage == Raised || world.proc.phase.flushFailed
      ensures ok <==> old(!flushFailed && (buffered == [] || UpdatedAt() <= now))
      ensures ok ==> Dropped() == old(Dropped()) && world.proc.phase.pending == pending
      ensures ok ==> UpdatedAt() == old(UpdatedAt()) || UpdatedAt() == now
      ensures ok ==>
        StillHere(R.Endpoint(old(world)), old(buffered), old(Dropped()), R.Endpoint(world), [], Dropped())
    {
      JoinFlusher(raised);
      ok := !flushFailed;
      if ok && buffered != [] {
        ok := FlushRest(id, now);
      }
    }

    /** A flush has failed: that error is raised. */
    method RaiseFlushError() returns (fault: Option<Fault>)
      requires Valid() && world.store.Some? && |world.store.value.endpoints| == 1 && world.proc.Scanning?
      requires Over(world.proc.phase) && (world.proc.phase.stage == Raised || world.proc.phase.flushFailed)
      modifies this`world, this`trace
      ensures Valid() && old(trace) <= trace && AfterPhase(fault) && fault == Some(ErrorFault(STORE_TEXT))
    {
      EndScan(ErrorFault(STORE_TEXT));
      return Some(ErrorFault(STORE_TEXT));
    }

    /** The end of a scan: the last flush, then the first error there is, then the check for missing ports. */
    method FinishScan(id: Identity, raised: Option<Fault>, lastFlush: int) returns (fault: Option<Fault>)
      requires Valid() && InScan() && world.proc.phase.stage == Scanning && id == R.Endpoint(world).identity
      requires raised.Some? ==> TextOk(raised.value)
      modifies this`buffered, this`world, this`trace, store
      ensures Valid() && old(trace) <= trace && AfterPhase(fault)
      ensures fault.None? ==> !flushFailed && raised.None? && buffered == []
      ensures var flushed := old(!flushFailed && (buffered == [] || UpdatedAt() <= lastFlush));
        && fault == (if !flushed then Some(ErrorFault(STORE_TEXT))
                     else if raised.Some? then raised
                     else if old(pending + Dropped()) != {} then Some(ErrorFault(MISSING_TEXT)) else None)
        && (flushed ==> R.Endpoint(world).pending == old(pending + Dropped()))
        && (flushed ==> UpdatedAt() == old(UpdatedAt()) || UpdatedAt() == lastFlush)
        && (flushed ==> StillHere(R.Endpoint(old(world)), old(buffered), old(Dropped()),
                                  R.Endpoint(world), [], old(Dropped())))
    {
      var ok := LastFlush(id, raised, lastFlush);
      if ok {
        fault := Conclude(raised);
      } else {
        fault := RaiseFlushError();
      }
    }

    /** After a drained scan: the executor's error if there is one, else the check for missing ports. */
    method Conclude(raised: Option<Fault>) returns (fault: Option<Fault>)
      requires Valid() && world.store.Some? && |world.store.value.endpoints| == 1
      requires world.proc.Scanning? && Drained(world.proc.phase) && !world.proc.phase.flushFailed
      requires world.proc.raised == raised && (raised.Some? ==> TextOk(raised.value))
      modifies this`world, this`trace, store
      ensures Valid() && old(trace) <= trace && AfterPhase(fault) && world.store == old(world).store
      ensures R.Endpoint(world).pending == old(world.proc.phase.pending + world.proc.phase.dropped)
      ensures fault == if raised.Some? then raised
                       else if R.Endpoint(world).pending != {} then Some(ErrorFault(MISSING_TEXT)) else None
    {
      AtRest(Limit(), trace, world);
      DrainedIsConfirmed(R.Endpoint(world), world.proc.phase, Limit());
      if raised.Some? {
        EndScan(raised.value);
        return raised;
      }
      fault := CheckComplete();
    }

    /** The check after a drained scan without errors: nothing is pending in the store. */
    method CheckComplete() returns (fault: Option<Fault>)
      requires Valid() && world.store.Some? && |world.store.value.endpoints| == 1
      requires world.proc.Scanning? && Drained(world.proc.phase) && !world.proc.phase.flushFailed
      requires world.proc.raised.None?
      modifies this`world, this`trace, store
      ensures Valid() && old(trace) <= trace && AfterPhase(fault)
      ensures world.store == old(world).store
      ensures fault == if R.Endpoint(old(world)).pending != {} then Some(ErrorFault(MISSING_TEXT)) else None
    {
      AtRest(Limit(), trace, world);
      HoldsLoads(SingleTarget, store.db, world.store);
      var latest := store.Load();
      if latest.value.endpoints[0].pending != {} {
        EndScan(ErrorFault(MISSING_TEXT));
        return Some(ErrorFault(MISSING_TEXT));
      }
      Do(R.ScanDone);
      return None;
    }

    /** Asks for exactly the pending ports and sets up the shared variables, unless nothing is pending. */
    method StartScan(endpoint: Progress)
      requires Valid() && world.proc.Started? && world.store.Some? && |world.store.value.endpoints| == 1
      requires endpoint == R.Endpoint(world)
      modifies this`pending, this`seen, this`buffered, this`flushFailed, this`world, this`trace
      ensures Valid() && old(trace) <= trace && world.store == old(world).store
      ensures endpoint.pending == {} ==> AfterPhase(None)
      ensures endpoint.pending != {} ==>
        && InScan() && world.proc == R.Scanning(ScanPhase.Begin(endpoint), None) && pending == endpoint.pending
        && !flushFailed && seen == endpoint.completed.Keys
        && world.log == old(world).log + [R.Requested(endpoint.pending)]
    {
      Do(R.BeginScan);
      pending, seen, buffered, flushFailed := endpoint.pending, endpoint.completed.Keys, [], false;
    }

    /** The end of a scan, with what it means for the reports the callback has taken. */
    method SettleScan(id: Identity, executor: Executor, raised: Option<Fault>, ghost asked: set<int>,
                      ghost known: set<int>, ghost marked: set<int>)
      returns (fault: Option<Fault>)
      requires Valid() && InScan() && world.proc.phase.stage == Scanning && id == R.Endpoint(world).identity
      requires raised.Some? ==> TextOk(raised.value)
      requires raised.None? ==> executor.raised.None? && Taken(executor.turns, id, asked, known, marked)
      modifies this`buffered, this`world, this`trace, store
      ensures Valid() && old(trace) <= trace && AfterPhase(fault)
      ensures fault.None? ==> Delivered(executor, id, asked, known) && AllStored(executor.turns, R.Endpoint(world))
      ensures fault.None? ==> R.Endpoint(world).banners == marked
      ensures old(!flushFailed && Dropped() == {} && UpdatedAt() <= executor.lastFlush
                  && Taken(executor.turns, id, asked, known, marked)) ==>
        && fault == (if raised.Some? then raised
                     else if asked - ReportedPorts(executor.turns) != {} then Some(ErrorFault(MISSING_TEXT)) else None)
        && UpdatedAt() <= executor.lastFlush
        && R.Endpoint(world).pending == asked - ReportedPorts(executor.turns)
        && AllStored(executor.turns, R.Endpoint(world))
    {
      ghost var p, was, lost, left := R.Endpoint(world), buffered, Dropped(), pending;
      ghost var taken := Taken(executor.turns, id, asked, known, marked);
      if taken {
        CleanWithin(executor.turns, id, asked, known);
        assert left == asked - ReportedPorts(executor.turns);
      }
      fault := FinishScan(id, raised, executor.lastFlush);
      if fault.None? {
        assert left == {} by { assert left <= left + lost; }
        assert asked <= asked - ReportedPorts(executor.turns) + ReportedPorts(executor.turns);
      }
      if taken && lost == {} && StillHere(p, was, lost, R.Endpoint(world), [], lost) {
        AllArrive(executor.turns, p, was, R.Endpoint(world));
      }
    }

    /** The scan of a started phase, to its end. */
    method ScanPending(id: Identity, executor: Executor) returns (fault: Option<Fault>)
      requires Valid() && InScan() && world.proc.phase.stage == Scanning && id == R.Endpoint(world).identity
      requires !flushFailed && pending !! seen && Dropped() == {} && WellFormed(executor)
      modifies this`pending, this`seen, this`buffered, this`flushFailed, this`world, this`trace, store
      ensures Valid() && old(trace) <= trace && AfterPhase(fault)
      ensures fault.None? ==>
        && Delivered(executor, id, old(pending), old(seen)) && AllStored(executor.turns, R.Endpoint(world))
        && R.Endpoint(world).banners == old(R.Endpoint(world).banners)
      ensures old(HonestScan(executor, id, pending, UpdatedAt())) ==>
        && fault == ScanOutcome(executor, old(pending)) && UpdatedAt() <= executor.lastFlush
        && R.Endpoint(world).pending == old(pending) - ReportedPorts(executor.turns)
        && AllStored(executor.turns, R.Endpoint(world))
    {
      ghost var asked, known, marked := pending, seen, R.Endpoint(world).banners;
      var raised := RunScan(id, executor);
      fault := SettleScan(id, executor, raised, asked, known, marked);
    }

    /** Scans exactly the ports that are pending in the store.  After an honest scan the store lacks exactly the ports
        that were not reported, and the phase ends with the executor's own error, with the error for missing ports, or
        with success. */
    method CompleteScanPhase(current: Checkpoint, executor: Executor) returns (fault: Option<Fault>)
      requires Valid() && world.proc.Started? && world.store == Some(current) && |current.endpoints| == 1
      requires WellFormed(executor)
      modifies this, store
      ensures Valid() && old(trace) <= trace && AfterPhase(fault)
      ensures current.endpoints[0].pending == {} ==>
        fault.None? && store.db == old(store.db) && world.store == old(world).store
      ensures var requested := current.endpoints[0].pending;
        requested != {} && HonestScan(executor, current.endpoints[0].identity, requested, current.updatedAt) ==>
          && fault == ScanOutcome(executor, requested) && UpdatedAt() <= executor.lastFlush
          && R.Endpoint(world).pending == requested - ReportedPorts(executor.turns)
          && AllStored(executor.turns, R.Endpoint(world))
      ensures var p := current.endpoints[0];
        fault.None? && p.pending != {} ==>
          && Delivered(executor, p.identity, p.pending, p.completed.Keys)
          && AllStored(executor.turns, R.Endpoint(world)) && R.Endpoint(world).banners == p.banners
    {
      var endpoint := current.endpoints[0];
      StartScan(endpoint);
      if endpoint.pending == {} {
        return None;
      }
      AtRest(Limit(), trace, world);
      fault := ScanPending(endpoint.identity, executor);
    }

    /** Hands one banner to the store. */
    method ConfirmBanner(id: Identity, port: int, banner: Option<string>, now: int) returns (ok: bool)
      requires Valid() && world.proc.Bannering? && port in world.proc.todo
      requires world.store.Some? && |world.store.value.endpoints| == 1 && R.Endpoint(world).identity == id
      modifies this`world, this`trace, store
      ensures Valid() && old(trace) <= trace && world.store.Some?
      ensures ok <==> old(UpdatedAt()) <= now && (banner.Some? ==> |banner.value| <= MAX_BANNER_LENGTH)
      ensures !ok ==> world == old(world)
      ensures ok ==> world.proc == R.Bannering(old(world).proc.todo - {port})
      ensures ok ==> world.store == Some(BanneredAt(old(world).store.value, 0, port, banner, now))
      ensures ok ==> (
        var c, d := old(world).store.value, world.store.value;
        && Stamped(c, d, Running, None, 1, now) && BannerAdded(c.endpoints[0], d.endpoints[0], port, banner))
    {
      BannerWaits(Limit(), trace, world, port);
      BannerAccepted(Limit(), store.db, world.store.value, port, banner, now);
      BanneredAtContents(world.store.value, 0, port, banner, now);
      var receipt := store.CompleteBanner(id, port, banner, now);
      ok := receipt.Ok?;
      if ok {
        Do(R.RecordBanner(port, banner, now));
      }
    }

    /** Grabs and confirms the banner of one port. */
    method CompleteBanner(id: Identity, port: int, reply: Reply) returns (fault: Option<Fault>)
      requires Valid() && world.proc.Bannering? && port in world.proc.todo && (reply.Refused? ==> TextOk(reply.fault))
      requires world.store.Some? && |world.store.value.endpoints| == 1 && R.Endpoint(world).identity == id
      modifies this`world, this`trace, store
      ensures Valid() && old(trace) <= trace && world.store.Some? && |world.store.value.endpoints| == 1
      ensures fault.None? <==> Lands(reply, old(UpdatedAt()))
      ensures fault.None? ==> world.proc == R.Bannering(old(world).proc.todo - {port})
      ensures fault.None? ==> world.store == Some(BanneredAt(old(world).store.value, 0, port, reply.banner, reply.now))
      ensures fault.None? ==> (
        var c, d := old(world).store.value, world.store.value;
        && Stamped(c, d, Running, None, 1, reply.now)
        && BannerAdded(c.endpoints[0], d.endpoints[0], port, reply.banner))
      ensures fault.Some? ==> world == old(world).(proc := R.Failing(fault.value)) && TextOk(fault.value)
      ensures fault.Some? ==> fault.value == FaultOf(reply)
    {
      match reply {
        case Interrupted => fault := Some(CancelFault(CANCEL_TEXT));
        case Refused(raised) => fault := Some(raised);
        case Grabbed(banner, now) =>
          var ok := ConfirmBanner(id, port, banner, now);
          if ok {
            return None;
          }
          fault := Some(ErrorFault(STORE_TEXT));
      }
      Do(R.BannerRaises(fault.value));
    }

    /** Grabs the banner of every open port that has none yet, one confirmed call each. */
    method CompleteBannerPhase(current: Checkpoint, executor: Executor) returns (fault: Option<Fault>)
      requires Valid() && world.store == Some(current) && AfterPhase(None)
      requires WellFormed(executor)
      modifies this`world, this`trace, store
      ensures Valid() && old(trace) <= trace && world.store.Some? && |world.store.value.endpoints| == 1
      ensures fault.None? ==> world.proc.Completing?
      ensures fault.Some? ==> world.proc == R.Failing(fault.value) && TextOk(fault.value)
      ensures !current.plan.bannerGrab ==> fault.None? && world == old(world)
      ensures current.plan.bannerGrab ==> (
        var p := current.endpoints[0];
        var todo := OpenPorts(p) - p.banners;
        && (fault.None? <==> Smooth(executor.replies, todo, current.updatedAt))
        && (fault.None? ==> BannersAdded(p, R.Endpoint(world), executor.replies, todo))
        && (fault.Some? ==>
              exists port :: StopsAt(executor.replies, todo, current.updatedAt, port)
                             && fault.value == FaultOf(executor.replies(port))))
    {
      if !current.plan.bannerGrab {
        return None;
      }
      var p := current.endpoints[0];
      fault := GrabAll(current, p, OpenPorts(p) - p.banners, executor);
      if fault.None? {
        Do(R.BannersDone);
      }
    }

    /** The banner of the lowest of these ports. */
    method GrabNext(p: Progress, port: int, todo: set<int>, executor: Executor, ghost from: int, ghost done: set<int>)
      returns (fault: Option<Fault>)
      requires Valid() && world.proc == R.Bannering(todo) && WellFormed(executor)
      requires IsLeast(todo, port)
      requires world.store.Some? && |world.store.value.endpoints| == 1
      requires Landed(p, R.Endpoint(world), executor.replies, from, UpdatedAt(), done, todo)
      modifies this`world, this`trace, store
      ensures Valid() && old(trace) <= trace && world.store.Some? && |world.store.value.endpoints| == 1
      ensures fault.None? ==> world.proc == R.Bannering(todo - {port})
      ensures fault.None? ==>
        Landed(p, R.Endpoint(world), executor.replies, from, UpdatedAt(), done + {port}, todo - {port})
      ensures fault.Some? ==> world.proc == R.Failing(fault.value) && TextOk(fault.value)
      ensures fault.Some? ==>
        fault.value == FaultOf(executor.replies(port)) && !Lands(executor.replies(port), old(UpdatedAt()))
    {
      ghost var at, before := UpdatedAt(), R.Endpoint(world);
      fault := CompleteBanner(p.identity, port, executor.replies(port));
      if fault.None? {
        NextLanded(p, before, R.Endpoint(world), executor.replies, from, at, done, todo, port);
      }
    }

    /** The banners of these ports, ascending, up to the first fault. */
    method GrabAll(ghost current: Checkpoint, p: Progress, ports: set<int>, executor: Executor)
      returns (fault: Option<Fault>)
      requires Valid() && world.store == Some(current) && current.endpoints == [p] && world.proc == R.Bannering(ports)
      requires WellFormed(executor)
      modifies this`world, this`trace, store
      ensures Valid() && old(trace) <= trace && world.store.Some? && |world.store.value.endpoints| == 1
      ensures fault.None? ==>
        && world.proc == R.Bannering({}) && Smooth(executor.replies, ports, current.updatedAt)
        && BannersAdded(p, R.Endpoint(world), executor.replies, ports)
      ensures fault.Some? ==>
        && world.proc == R.Failing(fault.value) && TextOk(fault.value)
        && !Smooth(executor.replies, ports, current.updatedAt)
        && exists port :: StopsAt(executor.replies, ports, current.updatedAt, port)
                          && fault.value == FaultOf(executor.replies(port))
    {
      ghost var done: set<int>, from := {}, current.updatedAt;
      var todo := ports;
      NoneLanded(p, executor.replies, from, ports);
      while exists port :: port in todo
        invariant Valid() && world.proc == R.Bannering(todo) && old(trace) <= trace
        invariant world.store.Some? && |world.store.value.endpoints| == 1 && done + todo == ports
        invariant Landed(p, R.Endpoint(world), executor.replies, from, UpdatedAt(), done, todo)
        decreases todo
      {
        var port := Lowest(todo);
        ghost var at, before := UpdatedAt(), R.Endpoint(world);
        fault := GrabNext(p, port, todo, executor, from, done);
        if fault.Some? {
          NextStops(p, before, executor.replies, from, at, done, todo, port);
          return;
        }
        OneMoved(done, todo, port);
        todo, done := todo - {port}, done + {port};
      }
      assert todo == {} && done == ports;
      fault := None;
    }

    /** Records how a run ended: CANCELLED with the endpoint untouched, or FAILED with the error on the endpoint. */
    method RecordFault(fault: Fault, now: int) returns (saved: bool)
      requires Valid() && world.proc == R.Failing(fault) && world.store.Some?
      modifies this`world, this`trace, store
      ensures Valid() && world.proc.Down? && old(trace) <= trace && |old(world).store.value.endpoints| == 1
      ensures saved <==> old(world).store.value.createdAt <= now
      ensures !saved ==> world.store == old(world).store && store.db == old(store.db)
      ensures saved ==> var c := old(world).store.value; world.store == Some(
        if fault.CancelFault? then Advance(c, c.endpoints, Cancelled, Some(fault.text), now)
        else Advance(c, [WithError(c.endpoints[0], Some(fault.text))], Failed, Some(fault.text), now))
      ensures saved ==> (
        var c, d := old(world).store.value, world.store.value;
        if fault.CancelFault? then Stamped(c, d, Cancelled, Some(fault.text), 1, now) && d.endpoints == c.endpoints
        else && Stamped(c, d, Failed, Some(fault.text), 1, now)
             && OnlyError(c.endpoints[0], d.endpoints[0], Some(fault.text)))
    {
      AtRest(Limit(), trace, world);
      HoldsLoads(SingleTarget, store.db, world.store);
      var latest := store.Load();
      var c := latest.value;
      saved := c.createdAt <= now;
      if saved {
        assert c.endpoints == [c.endpoints[0]];
        Save(if fault.CancelFault? then Advance(c, c.endpoints, Cancelled, Some(fault.text), now)
             else Advance(c, [WithError(c.endpoints[0], Some(fault.text))], Failed, Some(fault.text), now),
             R.PersistFault(now));
      } else {
        Do(R.Crash);
      }
    }

    /** Persists COMPLETED over the latest checkpoint. */
    method FinishRun(now: int) returns (r: Result<Checkpoint, Fault>)
      requires Valid() && world.proc.Completing? && world.store.Some?
      modifies this`world, this`trace, store
      ensures Valid() && old(trace) <= trace && world.store.Some?
      ensures r.Ok? ==> world.proc.Down? && world.store == Some(r.value)
      ensures r.Ok? ==>
        r.value == Advance(old(world).store.value, old(world).store.value.endpoints, Completed, None, now)
      ensures r.Ok? ==>
        Stamped(old(world).store.value, r.value, Completed, None, 1, now)
        && r.value.endpoints == old(world).store.value.endpoints
      ensures r.Ok? <==> old(world).store.value.createdAt <= now
      ensures r.Err? ==> world == old(world).(proc := R.Failing(r.error)) && r.error == ErrorFault(CLOCK_TEXT)
    {
      AtRest(Limit(), trace, world);
      HoldsLoads(SingleTarget, store.db, world.store);
      var latest := store.Load();
      var c := latest.value;
      if now < c.createdAt {
        Do(R.CompletionRaises(ErrorFault(CLOCK_TEXT)));
        return Err(ErrorFault(CLOCK_TEXT));
      }
      assert c.endpoints == [c.endpoints[0]];
      var completed := Advance(c, c.endpoints, Completed, None, now);
      Save(completed, R.PersistCompleted(now));
      return Ok(completed);
    }

    /** Both phases and the COMPLETED checkpoint; a fault leaves the runner about to record it. */
    method Complete(running: Checkpoint, executor: Executor, now: int) returns (r: Result<Checkpoint, Fault>)
      requires Valid() && world.proc.Started? && world.store == Some(running) && |running.endpoints| == 1
      requires WellFormed(executor)
      modifies this, store
      ensures Valid() && old(trace) <= trace && world.store.Some?
      ensures r.Ok? ==> world.proc.Down? && world.store == Some(r.value) && r.value.status == Completed
      ensures r.Ok? ==>
        && |r.value.endpoints| == 1 && r.value.updatedAt == now
        && Served(executor, running.endpoints[0], r.value.endpoints[0], running.plan)
      ensures running.createdAt <= now && Serves(executor, running.endpoints[0], running.plan, running.updatedAt) ==>
        r.Ok?
      ensures r.Err? ==> world.proc == R.Failing(r.error)
    {
      var fault := BothPhases(running, executor);
      if fault.Some? {
        return Err(fault.value);
      }
      r := FinishRun(now);
    }

    /** The scan phase, and the checkpoint that it leaves in the store. */
    method ScanAndLoad(running: Checkpoint, executor: Executor) returns (fault: Option<Fault>, current: Checkpoint)
      requires Valid() && world.proc.Started? && world.store == Some(running) && |running.endpoints| == 1
      requires WellFormed(executor)
      modifies this, store
      ensures Valid() && old(trace) <= trace && AfterPhase(fault)
      ensures fault.None? ==>
        && world.store == Some(current) && current.plan == running.plan && current.createdAt == running.createdAt
        && AccountsFor(current.endpoints[0], running.plan)
        && Scanned(executor, running.endpoints[0], current.endpoints[0])
      ensures Serves(executor, running.endpoints[0], running.plan, running.updatedAt) ==>
        fault.None? && current.updatedAt <= LastTime(executor, running.endpoints[0], running.updatedAt)
    {
      ghost var before := trace;
      current := running;
      fault := CompleteScanPhase(running, executor);
      if fault.Some? {
        return;
      }
      R.LongerRunKeeps(Limit(), before, trace);
      AtRest(Limit(), trace, world);
      HoldsLoads(SingleTarget, store.db, world.store);
      var loaded := store.Load();
      current := loaded.value;
    }

    /** The scan phase and the banner phase over what it has left in the store. */
    method BothPhases(running: Checkpoint, executor: Executor) returns (fault: Option<Fault>)
      requires Valid() && world.proc.Started? && world.store == Some(running) && |running.endpoints| == 1
      requires WellFormed(executor)
      modifies this, store
      ensures Valid() && old(trace) <= trace && world.store.Some? && |world.store.value.endpoints| == 1
      ensures fault.None? ==>
        && world.proc.Completing? && world.store.value.createdAt == running.createdAt
        && Served(executor, running.endpoints[0], R.Endpoint(world), running.plan)
      ensures fault.Some? ==> world.proc == R.Failing(fault.value) && TextOk(fault.value)
      ensures Serves(executor, running.endpoints[0], running.plan, running.updatedAt) ==> fault.None?
    {
      ghost var p := running.endpoints[0];
      AtRest(Limit(), trace, world);
      var current;
      fault, current := ScanAndLoad(running, executor);
      if fault.Some? {
        return;
      }
      ghost var m, between := current.endpoints[0], trace;
      WillLand(executor, p, running.plan, running.updatedAt, m, current.updatedAt);
      fault := CompleteBannerPhase(current, executor);
      if fault.None? {
        R.LongerRunKeeps(Limit(), between, trace);
        PhasesServe(executor, p, m, R.Endpoint(world), running.plan);
      }
    }

    /** The run of a session that is RUNNING: the first look at the cancel event, then its phases. */
    method Work(running: Checkpoint, executor: Executor, now: int, cancelled: bool)
      returns (r: Result<Checkpoint, Fault>)
      requires Valid() && world.proc.Started? && world.store == Some(running) && |running.endpoints| == 1
      requires WellFormed(executor)
      modifies this, store
      ensures Valid() && old(trace) <= trace && world.store.Some?
      ensures cancelled ==> r == Err(CancelFault(CANCEL_TEXT))
      ensures r.Ok? ==> world.proc.Down? && world.store == Some(r.value) && r.value.status == Completed
      ensures r.Ok? ==>
        && |r.value.endpoints| == 1 && r.value.updatedAt == now
        && Served(executor, running.endpoints[0], r.value.endpoints[0], running.plan)
      ensures !cancelled ==>
        Serves(executor, running.endpoints[0], running.plan, running.updatedAt) && running.createdAt <= now ==> r.Ok?
      ensures r.Err? ==> world.proc == R.Failing(r.error)
    {
      if cancelled {
        Do(R.CancelledAtStart(CancelFault(CANCEL_TEXT)));
        return Err(CancelFault(CANCEL_TEXT));
      }
      r := Complete(running, executor, now);
    }

    /** Loads the session and checks it against the expected plan and the status COMPLETED; RUNNING is persisted. */
    method BeginRun(expected: Option<Plan>, now: int) returns (r: Result<Checkpoint, Failure>)
      requires Valid() && world.proc.Down?
      modifies this`world, this`trace, store
      ensures Valid() && old(trace) <= trace
      ensures r.Err? ==> world.store == old(world).store && store.db == old(store.db) && world.proc.Down?
      ensures r.Err? ==> r.error == match old(world).store
        case None => NoSession
        case Some(c) => if OtherPlan(expected, c) then PlanMismatch else BadClock
      ensures r.Ok? <==> old(world).store.Some? && !OtherPlan(expected, old(world).store.value)
                         && (old(world).store.value.status == Completed || old(world).store.value.createdAt <= now)
      ensures r.Ok? ==> world.store == Some(r.value) && |r.value.endpoints| == 1
      ensures r.Ok? ==> if r.value.status == Completed then world == old(world) && store.db == old(store.db)
                        else world.proc.Started? && r.value.status == Running
      ensures r.Ok? && r.value.status != Completed ==>
        && Stamped(old(world).store.value, r.value, Running, None, 1, now)
        && OnlyError(old(world).store.value.endpoints[0], r.value.endpoints[0], None)
      ensures r.Ok? && old(world).store.value.status == Completed ==> r.value == old(world).store.value
    {
      HoldsLoads(SingleTarget, store.db, world.store);
      var loaded := store.Load();
      if loaded.Err? {
        return Err(NoSession);
      }
      var c := loaded.value;
      AtRest(Limit(), trace, world);
      if OtherPlan(expected, c) {
        return Err(PlanMismatch);
      }
      if c.status == Completed {
        return Ok(c);
      }
      Do(R.Load);
      if now < c.createdAt {
        Do(R.Crash);
        return Err(BadClock);
      }
      var running := Advance(c, [WithError(c.endpoints[0], None)], Running, None, now);
      Save(running, R.ToRunning(now));
      return Ok(running);
    }

    /** Creates the session and resumes it with the same plan, which is then the one that is expected. */
    method Run(plan: Plan, sessionId: int, now: int, executor: Executor, clock: Clock, cancelled: bool)
      returns (r: Result<Checkpoint, Failure>)
      requires Valid() && ValidPlan(plan) && world.proc.Down? && WellFormed(executor)
      modifies this, store
      ensures Valid() && world.proc.Down? && old(trace) <= trace
      ensures r == Err(ScopeRejected) <==> !PlanAllowed(SingleTarget, plan)
      ensures r == Err(SessionExists) <==> PlanAllowed(SingleTarget, plan) && old(world.store).Some?
      ensures r != Err(NoSession) && r != Err(PlanMismatch)
      ensures PlanAllowed(SingleTarget, plan) && old(world.store).None? ==>
        && world.store.Some? && world.store.value.sessionId == sessionId && world.store.value.plan == plan
        && world.store.value.createdAt == now
      ensures r.Ok? ==> world.store == Some(r.value) && r.value.status == Completed
      ensures var empty := Progress(plan.targets[0], map[], plan.ports, {}, None);
        PlanAllowed(SingleTarget, plan) && old(world.store).None? && now <= clock.running ==>
          && (r.Ok? ==> |r.value.endpoints| == 1 && Served(executor, empty, r.value.endpoints[0], plan))
          && (!cancelled && Serves(executor, empty, plan, clock.running) && now <= clock.completed ==> r.Ok?)
    {
      var created := Create(plan, sessionId, now);
      if created.Err? {
        return created;
      }
      r := Resume(Some(plan), executor, clock, cancelled);
    }

    /** Resumes the session.  COMPLETED is returned as it is; otherwise the run ends COMPLETED, or its fault is on
        record as CANCELLED or FAILED and raised; and nothing confirmed before is undone.  The cancel event is looked
        at where the run starts (`cancelled`), at every report and before every banner. */
    method Resume(expected: Option<Plan>, executor: Executor, clock: Clock, cancelled: bool)
      returns (r: Result<Checkpoint, Failure>)
      requires Valid() && world.proc.Down?
      requires WellFormed(executor)
      modifies this, store
      ensures Valid() && world.proc.Down? && old(trace) <= trace && R.Keeps(old(world).store, world.store)
      ensures r == Err(NoSession) <==> old(world).store.None?
      ensures r == Err(PlanMismatch) <==> old(world).store.Some? && OtherPlan(expected, old(world).store.value)
      ensures r.Err? ==> !r.error.ScopeRejected? && !r.error.SessionExists?
      ensures r.Ok? ==> world.store == Some(r.value) && r.value.status == Completed
      ensures old(world).store.Some? && old(world).store.value.status == Completed ==>
        && store.db == old(store.db) && (r.Ok? ==> r.value == old(world).store.value)
        && (!OtherPlan(expected, old(world).store.value) ==> r.Ok?)
      ensures Resumable(old(world).store, expected, clock) ==>
        && (r.Ok? ==> !cancelled && ServedBy(executor, old(world).store.value, r.value))
        && (!cancelled && ServesSession(executor, old(world).store.value, clock) ==> r.Ok?)
        && (cancelled && r.Err? && r.error.RunRaised? ==> r.error.fault == CancelFault(CANCEL_TEXT))
      ensures r == Err(BadClock) ==>
        clock.running < old(world).store.value.createdAt || clock.faulted < old(world).store.value.createdAt
      ensures r.Err? && r.error.RunRaised? ==>
        && world.store.Some? && world.store.value.lastError == Some(r.error.fault.text)
        && world.store.value.status == if r.error.fault.CancelFault? then Cancelled else Failed
    {
      ghost var before := trace;
      var begun := BeginRun(expected, clock.running);
      if begun.Err? || begun.value.status == Completed {
        R.LongerRunKeeps(Limit(), before, trace);
        return begun;
      }
      var done := Work(begun.value, executor, clock.completed, cancelled);
      if done.Ok? {
        R.LongerRunKeeps(Limit(), before, trace);
        return Ok(done.value);
      }
      R.LongerRunKeeps(Limit(), before, trace);
      var saved := RecordFault(done.error, clock.faulted);
      R.LongerRunKeeps(Limit(), before, trace);
      return Err(if saved then RunRaised(done.error) else BadClock);
    }
  }
}
