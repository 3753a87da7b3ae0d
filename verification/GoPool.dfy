/** The Go banner pool (`streamBanners`): a feeder, bounded workers, a closer and the consumer that calls the sink,
    over two buffered channels and one cancellation context, as a step relation over every interleaving.

    A port stands for the outcome of its probe.  A step on a closed channel is possible in this relation and puts
    the pool into the state `panicked`, as it would in Go; that no run gets there is a theorem. */
module GoPool {
  import opened Common

  const MAX_BANNER_WORKERS := 32
  const MAX_RESULT_CHANNEL_CAPACITY := 32

  function Min(a: int, b: int): int { if a < b then a else b }
  function Max(a: int, b: int): int { if a > b then a else b }

  function Workers(ports: seq<int>): nat { Min(MAX_BANNER_WORKERS, |ports|) }
  function Capacity(ports: seq<int>): nat { Min(MAX_RESULT_CHANNEL_CAPACITY, Max(1, Workers(ports))) }

  datatype Worker = Selecting | Probing(port: int) | Sending(outcome: int) | Returned

  datatype Channel = Channel(queue: seq<int>, closed: bool)

  datatype Pool = Pool(
    ports: seq<int>,
    fed: nat, feederDone: bool,
    portsChannel: Channel, workers: seq<Worker>,
    resultsChannel: Channel, closerDone: bool,
    calls: seq<int>,         // the ports the sink was called with, in order
    sinkFailed: bool, cancelled: bool, consumerDone: bool,
    dropped: seq<int>,       // outcomes that were probed but never reached the sink
    panicked: bool)

  function Start(ports: seq<int>): Pool {
    Pool(ports, 0, false, Channel([], false), seq(Workers(ports), _ => Selecting), Channel([], false), false,
         [], false, false, false, [], false)
  }

  datatype Step =
    | Feed | FeederEnds | FeederStops
    | Take(w: nat) | SeeClosed(w: nat) | StopSelecting(w: nat)
    | ProbeReturns(w: nat) | Send(w: nat) | StopSending(w: nat)
    | CloseResults
    | SinkOk | SinkFails | Drain | ConsumerEnds
    | ParentCancels

  predicate AllReturned(p: Pool) {
    forall w :: 0 <= w < |p.workers| ==> p.workers[w].Returned?
  }

  predicate Enabled(p: Pool, step: Step) {
    !p.panicked &&
    match step
    case Feed => !p.feederDone && p.fed < |p.ports| && |p.portsChannel.queue| < Capacity(p.ports)
    case FeederEnds => !p.feederDone && p.fed == |p.ports|
    case FeederStops => !p.feederDone && p.fed < |p.ports| && p.cancelled
    case Take(w) => w < |p.workers| && p.workers[w].Selecting? && p.portsChannel.queue != []
    case SeeClosed(w) =>
      w < |p.workers| && p.workers[w].Selecting? && p.portsChannel.queue == [] && p.portsChannel.closed
    case StopSelecting(w) => w < |p.workers| && p.workers[w].Selecting? && p.cancelled
    case ProbeReturns(w) => w < |p.workers| && p.workers[w].Probing?
    case Send(w) =>
      w < |p.workers| && p.workers[w].Sending? &&
      (p.resultsChannel.closed || |p.resultsChannel.queue| < Capacity(p.ports))
    case StopSending(w) => w < |p.workers| && p.workers[w].Sending? && p.cancelled
    case CloseResults => !p.closerDone && AllReturned(p)
    case SinkOk => !p.consumerDone && p.resultsChannel.queue != [] && !p.sinkFailed
    case SinkFails => !p.consumerDone && p.resultsChannel.queue != [] && !p.sinkFailed
    case Drain => !p.consumerDone && p.resultsChannel.queue != [] && p.sinkFailed
    case ConsumerEnds => !p.consumerDone && p.resultsChannel.queue == [] && p.resultsChannel.closed
    case ParentCancels => !p.cancelled
  }

  function Apply(p: Pool, step: Step): Pool
    requires Enabled(p, step)
  {
    match step
    case Feed =>
      if p.portsChannel.closed then p.(panicked := true)
      else p.(portsChannel := p.portsChannel.(queue := p.portsChannel.queue + [p.ports[p.fed]]), fed := p.fed + 1)
    case FeederEnds => CloseInput(p)
    case FeederStops => CloseInput(p)
    case Take(w) =>
      p.(workers := p.workers[w := Probing(p.portsChannel.queue[0])],
         portsChannel := p.portsChannel.(queue := p.portsChannel.queue[1..]))
    case SeeClosed(w) => p.(workers := p.workers[w := Returned])
    case StopSelecting(w) => p.(workers := p.workers[w := Returned])
    case ProbeReturns(w) => p.(workers := p.workers[w := Sending(p.workers[w].port)])
    case Send(w) =>
      if p.resultsChannel.closed then p.(panicked := true)
      else p.(resultsChannel := p.resultsChannel.(queue := p.resultsChannel.queue + [p.workers[w].outcome]),
              workers := p.workers[w := Selecting])
    case StopSending(w) =>
      p.(dropped := p.dropped + [p.workers[w].outcome], workers := p.workers[w := Returned])
    case CloseResults =>
      if p.resultsChannel.closed then p.(panicked := true)
      else p.(resultsChannel := p.resultsChannel.(closed := true), closerDone := true)
    case SinkOk => Received(p).(calls := p.calls + [p.resultsChannel.queue[0]])
    case SinkFails =>
      Received(p).(calls := p.calls + [p.resultsChannel.queue[0]], sinkFailed := true, cancelled := true)
    case Drain => Received(p).(dropped := p.dropped + [p.resultsChannel.queue[0]])
    case ConsumerEnds => p.(consumerDone := true)
    case ParentCancels => p.(cancelled := true)
  }

  function CloseInput(p: Pool): Pool {
    if p.portsChannel.closed then p.(panicked := true)
    else p.(portsChannel := p.portsChannel.(closed := true), feederDone := true)
  }

  function Received(p: Pool): Pool
    requires p.resultsChannel.queue != []
  {
    p.(resultsChannel := p.resultsChannel.(queue := p.resultsChannel.queue[1..]))
  }

  /** The pool starts one worker for each port, and at most 32; the feeder waits exactly while the channel of ports
      holds as many as there are workers, and a worker with an outcome while the channel of results does. */
  lemma StartsWorkers(ports: seq<int>)
    ensures var n := if |ports| < 32 then |ports| else 32;
      && |Start(ports).workers| == n && (forall w :: 0 <= w < n ==> Start(ports).workers[w] == Selecting)
      && forall p: Pool :: p.ports == ports && !p.panicked ==>
           var room := if n == 0 then 1 else n;
           && (Enabled(p, Feed) <==> !p.feederDone && p.fed < |ports| && |p.portsChannel.queue| < room)
           && forall w: nat :: Enabled(p, Send(w)) <==>
                w < |p.workers| && p.workers[w].Sending? && (p.resultsChannel.closed || |p.resultsChannel.queue| < room)
  {
  }

  /** The consumer calls the sink, which may succeed or fail, until it has failed, and drains the channel afterwards. */
  lemma ConsumerChoices(p: Pool)
    requires !p.panicked && !p.consumerDone && p.resultsChannel.queue != []
    ensures Enabled(p, SinkOk) <==> Enabled(p, SinkFails)
    ensures Enabled(p, SinkOk) <==> !p.sinkFailed
    ensures Enabled(p, Drain) <==> p.sinkFailed
    ensures !p.sinkFailed ==>
      && Apply(p, SinkOk).calls == p.calls + [p.resultsChannel.queue[0]] == Apply(p, SinkFails).calls
      && Apply(p, SinkFails).sinkFailed && Apply(p, SinkFails).cancelled && !Apply(p, SinkOk).sinkFailed
    ensures p.sinkFailed ==> Apply(p, Drain).calls == p.calls
  {
  }

  // ---------- Conservation ----------

  function Occurrences(s: seq<int>, x: int): nat { multiset(s)[x] }

  function HeldBy(w: Worker, x: int): nat {
    match w
    case Probing(y) => if x == y then 1 else 0
    case Sending(y) => if x == y then 1 else 0
    case _ => 0
  }

  function Held(ws: seq<Worker>, x: int): nat {
    if ws == [] then 0 else Held(ws[..|ws| - 1], x) + HeldBy(ws[|ws| - 1], x)
  }

  /** How often port `x` is anywhere in the pool: not fed, queued, held by a worker, delivered or dropped. */
  function Count(p: Pool, x: int): nat
    requires p.fed <= |p.ports|
  {
    Occurrences(p.ports[p.fed..], x) + Occurrences(p.portsChannel.queue, x) + Held(p.workers, x)
    + Occurrences(p.resultsChannel.queue, x) + Occurrences(p.calls, x) + Occurrences(p.dropped, x)
  }

  ghost predicate Conserved(p: Pool) {
    p.fed <= |p.ports| && forall x :: Count(p, x) == Occurrences(p.ports, x)
  }

  /** Without cancellation a worker returns only when there is nothing left to take, and nothing is dropped. */
  predicate UncancelledShape(p: Pool) {
    && p.dropped == []
    && (p.feederDone ==> p.fed == |p.ports|)
    && forall w :: 0 <= w < |p.workers| && p.workers[w].Returned? ==> p.feederDone && p.portsChannel.queue == []
  }

  predicate Shape(p: Pool) {
    && p.fed <= |p.ports|
    && |p.workers| == Workers(p.ports)
    && (p.feederDone <==> p.portsChannel.closed)
    && (p.closerDone <==> p.resultsChannel.closed)
    && |p.resultsChannel.queue| <= Capacity(p.ports)
    && (p.closerDone ==> AllReturned(p))
    && (p.consumerDone ==> p.closerDone && p.resultsChannel.queue == [])
    && (p.sinkFailed ==> p.cancelled)
    && (!p.cancelled ==> UncancelledShape(p))
    && !p.panicked
  }

  ghost predicate Inv(p: Pool) { Shape(p) && Conserved(p) }

  lemma {:induction false} ReplaceWorker(ws: seq<Worker>, w: nat, next: Worker, x: int)
    requires w < |ws|
    ensures Held(ws[w := next], x) + HeldBy(ws[w], x) == Held(ws, x) + HeldBy(next, x)
  {
    var front := ws[..|ws| - 1];
    if w == |ws| - 1 {
      assert ws[w := next][..|ws| - 1] == front;
    } else {
      ReplaceWorker(front, w, next, x);
      assert ws[w := next][..|ws| - 1] == front[w := next];
    }
  }

  lemma {:induction false} IdleWorkersHoldNothing(ws: seq<Worker>, x: int)
    requires forall w :: 0 <= w < |ws| ==> HeldBy(ws[w], x) == 0
    ensures Held(ws, x) == 0
  {
    if ws != [] {
      IdleWorkersHoldNothing(ws[..|ws| - 1], x);
    }
  }

  lemma FirstMoves(s: seq<int>, x: int)
    requires s != []
    ensures Occurrences(s, x) == Occurrences([s[0]], x) + Occurrences(s[1..], x)
  {
    assert s == [s[0]] + s[1..];
  }

  lemma Appended(s: seq<int>, y: int, x: int)
    ensures Occurrences(s + [y], x) == Occurrences(s, x) + (if x == y then 1 else 0)
    ensures Occurrences([y], x) == if x == y then 1 else 0
  {
  }

  lemma StartInv(ports: seq<int>)
    ensures Inv(Start(ports))
  {
    var p := Start(ports);
    assert ports[0..] == ports;
    forall x ensures Count(p, x) == Occurrences(ports, x) {
      IdleWorkersHoldNothing(p.workers, x);
    }
  }

  lemma FeedMoves(ports: seq<int>, fed: nat, queue: seq<int>, x: int)
    requires fed < |ports|
    ensures Occurrences(ports[fed..], x) + Occurrences(queue, x)
            == Occurrences(ports[fed + 1..], x) + Occurrences(queue + [ports[fed]], x)
  {
    assert ports[fed..] == [ports[fed]] + ports[fed + 1..];
    Appended(queue, ports[fed], x);
  }

  lemma FeedConserves(p: Pool, x: int)
    requires Shape(p) && Enabled(p, Feed)
    ensures Apply(p, Feed).fed <= |p.ports| && Count(Apply(p, Feed), x) == Count(p, x)
  {
    FeedMoves(p.ports, p.fed, p.portsChannel.queue, x);
  }

  lemma ReceiveConserves(p: Pool, step: Step, x: int)
    requires Shape(p) && Enabled(p, step) && (step.SinkOk? || step.SinkFails? || step.Drain?)
    ensures Apply(p, step).fed <= |p.ports| && Count(Apply(p, step), x) == Count(p, x)
  {
    ReceiveMoves(p, x);
  }

  lemma TakeConserves(p: Pool, step: Step, x: int)
    requires Shape(p) && Enabled(p, step) && step.Take?
    ensures Apply(p, step).fed <= |p.ports| && Count(Apply(p, step), x) == Count(p, x)
  {
    var port := p.portsChannel.queue[0];
    FirstMoves(p.portsChannel.queue, x);
    Appended([], port, x);
    ReplaceWorker(p.workers, step.w, Probing(port), x);
  }

  lemma WorkerStepConserves(p: Pool, step: Step, x: int)
    requires Shape(p) && Enabled(p, step)
    requires step.SeeClosed? || step.StopSelecting? || step.ProbeReturns? || step.Send? || step.StopSending?
    ensures Apply(p, step).fed <= |p.ports| && Count(Apply(p, step), x) == Count(p, x)
  {
    var q := Apply(p, step);
    ReplaceWorker(p.workers, step.w, q.workers[step.w], x);
    if step.Send? {
      Appended(p.resultsChannel.queue, p.workers[step.w].outcome, x);
    }
    if step.StopSending? {
      Appended(p.dropped, p.workers[step.w].outcome, x);
    }
  }

  /** A step moves a port from one place to the next and loses none. */
  lemma StepConserves(p: Pool, step: Step, x: int)
    requires Shape(p) && Enabled(p, step)
    ensures Apply(p, step).fed <= |p.ports| && Count(Apply(p, step), x) == Count(p, x)
  {
    if step.Feed? {
      FeedConserves(p, x);
    } else if step.SinkOk? || step.SinkFails? || step.Drain? {
      ReceiveConserves(p, step, x);
    } else if step.Take? {
      TakeConserves(p, step, x);
    } else if step.SeeClosed? || step.StopSelecting? || step.ProbeReturns? || step.Send? || step.StopSending? {
      WorkerStepConserves(p, step, x);
    }
  }

  lemma ReceiveMoves(p: Pool, x: int)
    requires p.resultsChannel.queue != []
    ensures var y := p.resultsChannel.queue[0];
      && Occurrences(p.calls + [y], x) + Occurrences(p.resultsChannel.queue[1..], x)
         == Occurrences(p.calls, x) + Occurrences(p.resultsChannel.queue, x)
      && Occurrences(p.dropped + [y], x) + Occurrences(p.resultsChannel.queue[1..], x)
         == Occurrences(p.dropped, x) + Occurrences(p.resultsChannel.queue, x)
  {
    FirstMoves(p.resultsChannel.queue, x);
    Appended(p.calls, p.resultsChannel.queue[0], x);
    Appended(p.dropped, p.resultsChannel.queue[0], x);
  }

  lemma StepKeepsShape(p: Pool, step: Step)
    requires Shape(p) && Enabled(p, step)
    ensures Shape(Apply(p, step))
  {
  }

  lemma StepKeepsInv(p: Pool, step: Step)
    requires Inv(p) && Enabled(p, step)
    ensures Inv(Apply(p, step)) && Apply(p, step).ports == p.ports
  {
    StepKeepsShape(p, step);
    forall x ensures Count(Apply(p, step), x) == Occurrences(p.ports, x) {
      StepConserves(p, step, x);
    }
  }

  // ---------- Whole runs ----------

  predicate Legal(p: Pool, steps: seq<Step>)
    decreases |steps|
  {
    steps == [] || (Enabled(p, steps[0]) && Legal(Apply(p, steps[0]), steps[1..]))
  }

  function Execute(p: Pool, steps: seq<Step>): Pool
    requires Legal(p, steps)
    decreases |steps|
  {
    if steps == [] then p else Execute(Apply(p, steps[0]), steps[1..])
  }

  lemma {:induction false} RunKeepsInv(p: Pool, steps: seq<Step>)
    requires Inv(p) && Legal(p, steps)
    ensures Inv(Execute(p, steps)) && Execute(p, steps).ports == p.ports
    decreases |steps|
  {
    if steps != [] {
      StepKeepsInv(p, steps[0]);
      RunKeepsInv(Apply(p, steps[0]), steps[1..]);
    }
  }

  /** Safety.  In every reachable state no channel has been used after its close, and the sink has been called at
      most once per occurrence of a port in the request, hence at most once per port of a duplicate-free request. */
  lemma EachPortAtMostOnce(ports: seq<int>, steps: seq<Step>)
    requires Legal(Start(ports), steps)
    ensures var p := Execute(Start(ports), steps);
      && !p.panicked
      && multiset(p.calls) <= multiset(ports)
      && (NoRepeats(ports) ==> NoRepeats(p.calls))
  {
    StartInv(ports);
    RunKeepsInv(Start(ports), steps);
    var p := Execute(Start(ports), steps);
    forall x ensures multiset(p.calls)[x] <= multiset(ports)[x] {
      assert Count(p, x) == Occurrences(ports, x);
      assert Occurrences(p.calls, x) <= Count(p, x);
    }
    if NoRepeats(ports) { SubBagNoRepeats(p.calls, ports); }
  }

  lemma SubBagNoRepeats(a: seq<int>, b: seq<int>)
    requires multiset(a) <= multiset(b) && NoRepeats(b)
    ensures NoRepeats(a)
  {
    forall i, j | 0 <= i < j < |a| ensures a[i] != a[j] {
      OccursOnce(b, a[i]);
      assert a == a[..i] + [a[i]] + a[i + 1..];
      assert a[j] in multiset(a[i + 1..]) by { assert a[j] == a[i + 1..][j - i - 1]; }
      assert multiset(a)[a[i]] == multiset(a[..i])[a[i]] + 1 + multiset(a[i + 1..])[a[i]];
    }
  }

  lemma {:induction false} OccursOnce(s: seq<int>, x: int)
    requires NoRepeats(s)
    ensures multiset(s)[x] <= 1
  {
    if s != [] {
      var front, last := s[..|s| - 1], s[|s| - 1];
      assert s == front + [last];
      OccursOnce(front, x);
      forall i | 0 <= i < |front| ensures front[i] != last {
        assert s[i] != s[|s| - 1];
      }
    }
  }

  /** When a pool that was never cancelled is done, the sink was called with exactly the requested ports. */
  lemma UncancelledDeliversAll(ports: seq<int>, steps: seq<Step>)
    requires Legal(Start(ports), steps)
    ensures var p := Execute(Start(ports), steps);
      p.consumerDone && !p.cancelled ==> multiset(p.calls) == multiset(ports) && !p.sinkFailed
  {
    StartInv(ports);
    RunKeepsInv(Start(ports), steps);
    var p := Execute(Start(ports), steps);
    if p.consumerDone && !p.cancelled {
      NothingLeft(p);
    }
  }

  lemma NothingLeft(p: Pool)
    requires Inv(p) && p.consumerDone && !p.cancelled
    ensures multiset(p.calls) == multiset(p.ports)
  {
    forall x ensures multiset(p.calls)[x] == multiset(p.ports)[x] {
      assert Count(p, x) == Occurrences(p.ports, x);
      IdleWorkersHoldNothing(p.workers, x);
      if |p.workers| > 0 {
        assert p.workers[0].Returned?;
        assert p.ports[p.fed..] == [];
      } else {
        assert |p.ports| == 0;
        assert Occurrences(p.ports, x) == 0;
      }
    }
  }

  /** After the sink has failed it is never called again. */
  lemma {:induction false} NoCallAfterFailure(p: Pool, steps: seq<Step>)
    requires p.sinkFailed && Legal(p, steps)
    ensures Execute(p, steps).calls == p.calls && Execute(p, steps).sinkFailed
    decreases |steps|
  {
    if steps != [] {
      NoCallAfterFailure(Apply(p, steps[0]), steps[1..]);
    }
  }

  /** Unless the parent cancels, only a failing sink does. */
  lemma {:induction false} OnlyTheSinkCancels(p: Pool, steps: seq<Step>)
    requires (p.cancelled ==> p.sinkFailed) && Legal(p, steps)
    requires forall k :: 0 <= k < |steps| ==> Internal(steps[k])
    ensures Execute(p, steps).cancelled ==> Execute(p, steps).sinkFailed
    decreases |steps|
  {
    if steps != [] {
      OnlyTheSinkCancels(Apply(p, steps[0]), steps[1..]);
    }
  }

  // ---------- Liveness ----------

  /** A step that makes progress by itself; cancellation by the parent is the environment's choice. */
  predicate Internal(step: Step) { !step.ParentCancels? }

  lemma StageEnabled(p: Pool, w: nat)
    requires Shape(p) && w < |p.workers| && !p.workers[w].Returned? && !p.consumerDone
    requires p.resultsChannel.queue == []
    ensures exists step :: Internal(step) && Enabled(p, step)
  {
    assert Capacity(p.ports) >= 1;
    match p.workers[w] {
      case Probing(_) => assert Enabled(p, ProbeReturns(w));
      case Sending(_) => assert Enabled(p, Send(w));
      case Selecting =>
        if p.portsChannel.queue != [] {
          assert Enabled(p, Take(w));
        } else if p.portsChannel.closed {
          assert Enabled(p, SeeClosed(w));
        } else if p.fed < |p.ports| {
          assert Enabled(p, Feed);
        } else {
          assert Enabled(p, FeederEnds);
        }
    }
  }

  /** No deadlock: until the consumer has finished, some goroutine can always step. */
  lemma NeverStuck(ports: seq<int>, steps: seq<Step>)
    requires Legal(Start(ports), steps) && !Execute(Start(ports), steps).consumerDone
    ensures exists step :: Internal(step) && Enabled(Execute(Start(ports), steps), step)
  {
    StartInv(ports);
    RunKeepsInv(Start(ports), steps);
    var p := Execute(Start(ports), steps);
    if p.resultsChannel.queue != [] {
      assert Enabled(p, if p.sinkFailed then Drain else SinkOk);
      assert Internal(if p.sinkFailed then Drain else SinkOk);
    } else if w :| 0 <= w < |p.workers| && !p.workers[w].Returned? {
      StageEnabled(p, w);
    } else if !p.closerDone {
      assert Enabled(p, CloseResults);
    } else {
      assert Enabled(p, ConsumerEnds);
    }
  }

  /** Every goroutine has ended: feeder, workers, closer and consumer. */
  predicate AllEnded(p: Pool) { p.feederDone && AllReturned(p) && p.closerDone && p.consumerDone }

  ghost predicate Quiescent(p: Pool) { forall step :: Internal(step) ==> !Enabled(p, step) }

  lemma FeederEndsToo(p: Pool)
    requires Shape(p) && p.consumerDone && Quiescent(p)
    ensures p.feederDone
  {
    assert Internal(FeederStops) && Internal(FeederEnds);
    assert !Enabled(p, FeederStops) && !Enabled(p, FeederEnds);
    assert |p.workers| > 0 ==> p.workers[0].Returned?;
  }

  lemma EndedIsQuiescent(p: Pool)
    requires Shape(p) && AllEnded(p)
    ensures Quiescent(p)
  {
    forall step | Internal(step) ensures !Enabled(p, step) {
    }
  }

  /** No goroutine is left behind: a pool in which nothing can step by itself any more is exactly one in which feeder,
      workers, closer and consumer have all ended. */
  lemma QuiescentExactly(ports: seq<int>, steps: seq<Step>)
    requires Legal(Start(ports), steps)
    ensures Quiescent(Execute(Start(ports), steps)) <==> AllEnded(Execute(Start(ports), steps))
  {
    StartInv(ports);
    RunKeepsInv(Start(ports), steps);
    var p := Execute(Start(ports), steps);
    if Quiescent(p) {
      if !p.consumerDone {
        NeverStuck(ports, steps);
      }
      FeederEndsToo(p);
    }
    if AllEnded(p) {
      EndedIsQuiescent(p);
    }
  }

  function WorkerWeight(w: Worker): nat {
    match w case Probing(_) => 4 case Sending(_) => 3 case Selecting => 1 case Returned => 0
  }

  function WorkersWeight(ws: seq<Worker>): nat {
    if ws == [] then 0 else WorkersWeight(ws[..|ws| - 1]) + WorkerWeight(ws[|ws| - 1])
  }

  /** What is left to do: an unfed port has five moves ahead of it, a queued one four, a result one. */
  function Measure(p: Pool): nat
    requires p.fed <= |p.ports|
  {
    5 * (|p.ports| - p.fed) + 4 * |p.portsChannel.queue| + WorkersWeight(p.workers) + |p.resultsChannel.queue|
    + (if p.feederDone then 0 else 1) + (if p.closerDone then 0 else 1) + (if p.consumerDone then 0 else 1)
    + (if p.cancelled then 0 else 1)
  }

  lemma {:induction false} ReplaceWeight(ws: seq<Worker>, w: nat, next: Worker)
    requires w < |ws|
    ensures WorkersWeight(ws[w := next]) + WorkerWeight(ws[w]) == WorkersWeight(ws) + WorkerWeight(next)
  {
    var front := ws[..|ws| - 1];
    if w == |ws| - 1 {
      assert ws[w := next][..|ws| - 1] == front;
    } else {
      ReplaceWeight(front, w, next);
      assert ws[w := next][..|ws| - 1] == front[w := next];
    }
  }

  lemma StepDecreases(p: Pool, step: Step)
    requires Shape(p) && Enabled(p, step)
    ensures Apply(p, step).fed <= |p.ports| && Measure(Apply(p, step)) < Measure(p)
  {
    var q := Apply(p, step);
    if step.Take? || step.SeeClosed? || step.StopSelecting? || step.ProbeReturns? || step.Send? || step.StopSending? {
      ReplaceWeight(p.workers, step.w, q.workers[step.w]);
    }
  }

  lemma {:induction false} RunDecreases(p: Pool, steps: seq<Step>)
    requires Inv(p) && Legal(p, steps)
    ensures Execute(p, steps).fed <= |Execute(p, steps).ports|
    ensures Measure(Execute(p, steps)) + |steps| <= Measure(p)
    decreases |steps|
  {
    if steps != [] {
      StepKeepsInv(p, steps[0]);
      StepDecreases(p, steps[0]);
      RunDecreases(Apply(p, steps[0]), steps[1..]);
    }
  }

  lemma {:induction false} SelectingWeight(ws: seq<Worker>)
    requires forall w :: 0 <= w < |ws| ==> ws[w].Selecting?
    ensures WorkersWeight(ws) == |ws|
  {
    if ws != [] { SelectingWeight(ws[..|ws| - 1]); }
  }

  /** Termination: no interleaving is longer than five steps per port, one per worker and four for closing down;
      with `QuiescentExactly`, every maximal run ends with every goroutine ended. */
  lemma RunsAreBounded(ports: seq<int>, steps: seq<Step>)
    requires Legal(Start(ports), steps)
    ensures |steps| <= 5 * |ports| + Workers(ports) + 4
  {
    StartInv(ports);
    RunDecreases(Start(ports), steps);
    SelectingWeight(Start(ports).workers);
  }
}
