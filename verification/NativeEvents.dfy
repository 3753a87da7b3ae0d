/** The native event channel: the strict acceptor on the Python side and the producer in the Go engine. */
module NativeEvents {
  import opened Common
  import GoPool

  datatype Engine = Rust | Go | OtherEngine
  datatype Phase = TcpScan | BannerGrab | OtherPhase
  datatype Kind = EngineStarted | PortCompleted | EngineCompleted | OtherEvent

  datatype Event = Event(
    version: int, recordType: string, engine: Engine, phase: Phase, kind: Kind, target: string,
    sequence: int, elapsedMs: int, port: Option<int>, status: string,
    completed: int, total: int, workers: int)

  /** What a stream expects: engine, target, the ports of the request and the effective workers. */
  datatype Expectation = Expectation(engine: Engine, target: string, ports: set<int>, workers: int)

  function PhaseOf(e: Engine): Phase {
    match e case Rust => TcpScan case Go => BannerGrab case OtherEngine => OtherPhase
  }

  /** `NativeEvent.validate`. */
  predicate ValidEvent(e: Event) {
    && e.version == 1 && e.recordType == "native_event"
    && e.engine in {Rust, Go} && e.phase == PhaseOf(e.engine)
    && e.kind in {EngineStarted, PortCompleted, EngineCompleted}
    && e.sequence >= 1 && e.elapsedMs >= 0 && e.total >= 1
    && 1 <= e.workers <= e.total && 0 <= e.completed <= e.total
    && (e.port.Some? ==> 1 <= e.port.value <= 65535)
  }

  predicate Correlated(x: Expectation, e: Event) {
    && e.engine == x.engine && e.phase == PhaseOf(x.engine) && e.target == x.target
    && e.total == |x.ports| && e.workers == x.workers
  }

  /** The ports a trace reports as completed. */
  function CompletedIn(trace: seq<Event>): set<int> {
    set i | 0 <= i < |trace| && trace[i].kind == PortCompleted && trace[i].port.Some? :: trace[i].port.value
  }

  predicate IsStart(e: Event) {
    e.kind == EngineStarted && e.port == None && e.status == "running" && e.completed == 0
  }

  /** The decision of the acceptor about the next event after the accepted trace `before`. */
  predicate AcceptsNext(x: Expectation, before: seq<Event>, e: Event) {
    && ValidEvent(e)
    && e.sequence == |before| + 1
    && Correlated(x, e)
    && (if before == [] then IsStart(e)
        else match e.kind
          case PortCompleted =>
            && e.port.Some? && e.port.value in x.ports && e.port.value !in CompletedIn(before)
            && e.completed == |CompletedIn(before)| + 1
          case EngineCompleted =>
            && e.port == None && e.status == "success" && e.completed == |x.ports| && CompletedIn(before) == x.ports
          case _ => false)
    && (before != [] ==> before[|before| - 1].kind != EngineCompleted)
  }

  predicate Accepts(x: Expectation, trace: seq<Event>) {
    trace == [] || (Accepts(x, trace[..|trace| - 1]) && AcceptsNext(x, trace[..|trace| - 1], trace[|trace| - 1]))
  }

  predicate CompleteTrace(x: Expectation, trace: seq<Event>) {
    |trace| == |x.ports| + 2 && trace[|trace| - 1].kind == EngineCompleted
  }

  class NativeEventStream {
    const expected: Expectation
    var events: seq<Event>
    var completed: set<int>
    var failed: bool
    var finished: bool

    ghost predicate Valid()
      reads this
    {
      Accepts(expected, events) && completed == CompletedIn(events)
    }

    /** The stream for a request; the constructor refuses an unknown engine and an empty set of ports. */
    constructor (engine: Engine, target: string, ports: set<int>, workers: int)
      requires engine in {Rust, Go} && ports != {}
      ensures Valid() && events == [] && !failed && !finished
      ensures expected.engine == engine && expected.target == target && expected.ports == ports
      ensures expected.workers == if workers < 1 then 1 else if workers < |ports| then workers else |ports|
    {
      expected := Expectation(engine, target, ports, GoPool.Min(GoPool.Max(1, workers), |ports|));
      events, completed, failed, finished := [], {}, false, false;
    }

    /** Accepts one validated event or refuses it and leaves the trace alone. */
    method Accept(e: Event) returns (ok: bool)
      requires Valid() && ValidEvent(e)
      modifies this`events, this`completed
      ensures Valid()
      ensures ok <==> AcceptsNext(expected, old(events), e)
      ensures events == if ok then old(events) + [e] else old(events)
    {
      if e.sequence != |events| + 1 || !Correlated(expected, e) {
        return false;
      }
      if events == [] {
        if !IsStart(e) {
          return false;
        }
      } else if e.kind == PortCompleted {
        if e.port.None? || e.port.value !in expected.ports || e.port.value in completed {
          return false;
        }
        if e.completed != |completed| + 1 {
          return false;
        }
      } else if e.kind == EngineCompleted {
        if e.port.Some? || e.status != "success" || e.completed != |expected.ports| || completed != expected.ports {
          return false;
        }
      } else {
        return false;
      }
      if events != [] && events[|events| - 1].kind == EngineCompleted {
        return false;
      }
      CompletedGrows(events, e);
      if e.kind == PortCompleted {
        completed := completed + {e.port.value};
      }
      assert (events + [e])[..|events|] == events;
      events := events + [e];
      return true;
    }

    /** The reader thread: every line of the channel in turn, up to the first one that is refused. */
    method Read(lines: seq<Event>)
      requires Valid() && events == [] && !failed
      modifies this`events, this`completed, this`failed
      ensures Valid()
      ensures failed <==> !Accepts(expected, lines)
      ensures events <= lines && (!failed ==> events == lines)
    {
      for k := 0 to |lines|
        invariant Valid() && !failed && events == lines[..k]
      {
        assert lines[..k + 1][..k] == lines[..k];
        var ok := ValidEvent(lines[k]);
        if ok {
          ok := Accept(lines[k]);
        }
        if !ok {
          RefusedStays(expected, lines, k + 1);
          failed := true;
          return;
        }
      }
      assert lines[..|lines|] == lines;
    }

    /** After the reader thread has ended: the whole trace, or failure. */
    method Finish() returns (r: Result<seq<Event>, bool>)
      requires Valid()
      modifies this`finished
      ensures old(finished) ==> r == Ok(events)
      ensures !old(finished) ==> r == if !failed && CompleteTrace(expected, events) then Ok(events) else Err(failed)
      ensures finished == (old(finished) || r.Ok?)
    {
      if finished {
        return Ok(events);
      }
      if failed {
        return Err(true);
      }
      if |events| != |expected.ports| + 2 || events[|events| - 1].kind != EngineCompleted {
        return Err(false);
      }
      finished := true;
      return Ok(events);
    }
  }

  lemma CompletedGrows(trace: seq<Event>, e: Event)
    ensures CompletedIn(trace + [e]) ==
            CompletedIn(trace) + if e.kind == PortCompleted && e.port.Some? then {e.port.value} else {}
  {
    var next := trace + [e];
    forall p | p in CompletedIn(trace) ensures p in CompletedIn(next) {
      var i :| 0 <= i < |trace| && trace[i].kind == PortCompleted && trace[i].port == Some(p);
      assert next[i] == trace[i];
    }
    assert next[|trace|] == e;
  }

  lemma {:induction false} RefusedStays(x: Expectation, trace: seq<Event>, k: nat)
    requires k <= |trace| && !Accepts(x, trace[..k])
    ensures !Accepts(x, trace)
    decreases |trace| - k
  {
    if k == |trace| {
      assert trace[..k] == trace;
    } else {
      assert trace[..k + 1][..k] == trace[..k];
      RefusedStays(x, trace, k + 1);
    }
  }

  // ---------- Which traces are accepted to the end ----------

  predicate PortEvent(x: Expectation, e: Event, n: int) {
    && e.kind == PortCompleted && e.port.Some? && e.port.value in x.ports && e.completed == n
  }

  /** What every event of the protocol says about its stream. */
  predicate StreamEvent(x: Expectation, e: Event, number: int) {
    && e.version == 1 && e.recordType == "native_event" && e.sequence == number
    && ((x.engine == Rust && e.engine == Rust && e.phase == TcpScan)
        || (x.engine == Go && e.engine == Go && e.phase == BannerGrab))
    && e.target == x.target && e.total == |x.ports| && e.workers == x.workers && 1 <= x.workers <= |x.ports|
    && 0 <= e.elapsedMs && (e.port.Some? ==> 1 <= e.port.value <= 65535)
  }

  /** Start, each port of the request exactly once with the counter running from 1, then the end. */
  predicate ProtocolTrace(x: Expectation, trace: seq<Event>) {
    && |trace| == |x.ports| + 2
    && (forall i :: 0 <= i < |trace| ==> StreamEvent(x, trace[i], i + 1))
    && var first, last := trace[0], trace[|trace| - 1];
       && first.kind == EngineStarted && first.port == None && first.status == "running" && first.completed == 0
       && (forall i :: 0 < i <= |x.ports| ==> PortEvent(x, trace[i], i))
       && (forall i, j :: 0 < i < j <= |x.ports| ==> trace[i].port != trace[j].port)
       && last.kind == EngineCompleted && last.port == None && last.status == "success" && last.completed == |x.ports|
  }

  /** The middle of a trace: `n` port events after the start. */
  predicate MiddleTrace(x: Expectation, trace: seq<Event>) {
    && trace != [] && IsStart(trace[0])
    && (forall i :: 0 <= i < |trace| ==>
          ValidEvent(trace[i]) && trace[i].sequence == i + 1 && Correlated(x, trace[i]))
    && (forall i :: 0 < i < |trace| ==> PortEvent(x, trace[i], i))
    && (forall i, j :: 0 < i < j < |trace| ==> trace[i].port != trace[j].port)
  }

  /** What the middle of a trace determines: one completed port per event after the start. */
  predicate Counted(x: Expectation, trace: seq<Event>) {
    trace != [] && |CompletedIn(trace)| == |trace| - 1 && CompletedIn(trace) <= x.ports
  }

  lemma NextInMiddle(x: Expectation, front: seq<Event>, last: Event)
    requires MiddleTrace(x, front) && Counted(x, front) && AcceptsNext(x, front, last) && last.kind != EngineCompleted
    ensures MiddleTrace(x, front + [last])
  {
    var trace := front + [last];
    assert trace[0] == front[0];
    forall i, j | 0 < i < j < |trace| ensures trace[i].port != trace[j].port {
      if j == |front| {
        assert front[i].port.value in CompletedIn(front);
      }
    }
  }

  lemma MiddleAcceptsNext(x: Expectation, front: seq<Event>, last: Event)
    requires MiddleTrace(x, front + [last]) && front != [] && Counted(x, front)
    ensures MiddleTrace(x, front) && AcceptsNext(x, front, last)
  {
    var trace := front + [last];
    assert forall i :: 0 <= i < |front| ==> front[i] == trace[i];
    assert trace[|front|] == last;
    forall i | 0 <= i < |front| && front[i].kind == PortCompleted ensures front[i].port != last.port {
      assert trace[i].port != trace[|front|].port;
    }
  }

  lemma MiddleStarts(x: Expectation, trace: seq<Event>)
    requires |trace| == 1
    ensures Accepts(x, trace) <==> MiddleTrace(x, trace)
    ensures Accepts(x, trace) ==> Counted(x, trace)
  {
    assert trace[..0] == [] && CompletedIn([]) == {};
    CompletedGrows([], trace[0]);
    assert [] + [trace[0]] == trace;
  }

  lemma {:induction false} MiddleExactly(x: Expectation, trace: seq<Event>)
    requires trace != [] && (forall i :: 0 <= i < |trace| ==> trace[i].kind != EngineCompleted)
    ensures Accepts(x, trace) <==> MiddleTrace(x, trace)
    ensures Accepts(x, trace) ==> Counted(x, trace)
  {
    if |trace| == 1 {
      MiddleStarts(x, trace);
    } else {
      var front, last := trace[..|trace| - 1], trace[|trace| - 1];
      assert trace == front + [last];
      MiddleExactly(x, front);
      CompletedGrows(front, last);
      if MiddleTrace(x, trace) {
        MiddlePrefix(x, trace);
        MiddleAcceptsNext(x, front, last);
      }
      if Accepts(x, trace) {
        NextInMiddle(x, front, last);
      }
    }
  }

  lemma MiddlePrefix(x: Expectation, trace: seq<Event>)
    requires MiddleTrace(x, trace) && |trace| > 1
    ensures MiddleTrace(x, trace[..|trace| - 1])
  {
  }

  /** A valid, numbered and correlated event is one of the stream; the converse needs its kind and counter. */
  lemma StreamEvents(x: Expectation, e: Event, number: int)
    ensures ValidEvent(e) && e.sequence == number && Correlated(x, e) ==> StreamEvent(x, e, number)
    ensures StreamEvent(x, e, number) && number >= 1 && 0 <= e.completed <= |x.ports| && e.kind != OtherEvent ==>
            ValidEvent(e) && e.sequence == number && Correlated(x, e)
  {
  }

  lemma AcceptedIsProtocol(x: Expectation, trace: seq<Event>)
    requires Accepts(x, trace) && CompleteTrace(x, trace)
    ensures ProtocolTrace(x, trace)
  {
    var front, last := trace[..|trace| - 1], trace[|trace| - 1];
    NoEarlyEnd(x, front);
    MiddleExactly(x, front);
    assert trace == front + [last];
    EndedMiddleIsProtocol(x, front, last);
  }

  lemma EndedMiddleIsProtocol(x: Expectation, front: seq<Event>, last: Event)
    requires MiddleTrace(x, front) && |front| == |x.ports| + 1
    requires AcceptsNext(x, front, last) && last.kind == EngineCompleted
    ensures ProtocolTrace(x, front + [last])
  {
    var trace := front + [last];
    assert trace[|front|] == last;
    forall i | 0 <= i < |trace| ensures StreamEvent(x, trace[i], i + 1) {
      assert i < |front| ==> trace[i] == front[i];
      StreamEvents(x, trace[i], i + 1);
    }
    forall i, j | 0 < i < j <= |x.ports| ensures trace[i].port != trace[j].port {
      assert trace[i] == front[i] && trace[j] == front[j];
    }
  }

  lemma ProtocolMiddle(x: Expectation, trace: seq<Event>)
    requires ProtocolTrace(x, trace)
    ensures MiddleTrace(x, trace[..|trace| - 1])
  {
    var front := trace[..|trace| - 1];
    forall i | 0 <= i < |front| ensures ValidEvent(front[i]) && front[i].sequence == i + 1 && Correlated(x, front[i]) {
      assert front[i] == trace[i];
      StreamEvents(x, trace[i], i + 1);
    }
  }

  lemma ProtocolIsAccepted(x: Expectation, trace: seq<Event>)
    requires ProtocolTrace(x, trace)
    ensures Accepts(x, trace) && CompleteTrace(x, trace)
  {
    var front, last := trace[..|trace| - 1], trace[|trace| - 1];
    ProtocolMiddle(x, trace);
    MiddleExactly(x, front);
    SubsetOfSameSize(CompletedIn(front), x.ports);
    StreamEvents(x, last, |trace|);
  }

  /** `finish` succeeds exactly on the protocol's traces. */
  lemma FinishSucceedsExactly(x: Expectation, trace: seq<Event>)
    ensures Accepts(x, trace) && CompleteTrace(x, trace) <==> ProtocolTrace(x, trace)
  {
    if Accepts(x, trace) && CompleteTrace(x, trace) { AcceptedIsProtocol(x, trace); }
    if ProtocolTrace(x, trace) { ProtocolIsAccepted(x, trace); }
  }

  lemma {:induction false} NoEarlyEnd(x: Expectation, front: seq<Event>)
    requires Accepts(x, front) && (front != [] ==> front[|front| - 1].kind != EngineCompleted)
    ensures forall i :: 0 <= i < |front| ==> front[i].kind != EngineCompleted
  {
    if |front| > 1 {
      NoEarlyEnd(x, front[..|front| - 1]);
    }
  }

  lemma SubsetOfSameSize(a: set<int>, b: set<int>)
    requires a <= b && |a| == |b|
    ensures a == b
  {
    assert |b - a| == |b| - |a|;
  }

  // ---------- The producer ----------

  /** The writer of the Go engine: it numbers the events it emits. */
  class NativeEventWriter {
    const target: string
    const total: int
    const workers: int
    var sequence: int
    var emitted: seq<Event>

    constructor (target: string, total: int, workers: int)
      ensures this.target == target && this.total == total && this.workers == workers
      ensures sequence == 0 && emitted == []
    {
      this.target, this.total, this.workers := target, total, workers;
      sequence, emitted := 0, [];
    }

    method Emit(kind: Kind, status: string, port: Option<int>, completed: int, elapsedMs: int)
      modifies this
      ensures sequence == old(sequence) + 1
      ensures emitted == old(emitted) +
        [Event(1, "native_event", Go, BannerGrab, kind, target, sequence, elapsedMs, port, status, completed,
               total, workers)]
    {
      sequence := sequence + 1;
      emitted := emitted +
        [Event(1, "native_event", Go, BannerGrab, kind, target, sequence, elapsedMs, port, status, completed,
               total, workers)];
    }
  }

  /** What happened at one call of the sink: the probed port, its status and the elapsed time. */
  datatype Outcome = Outcome(port: int, status: string, elapsedMs: int)

  /** Event `i` of a run whose sink was called with these outcomes and never failed. */
  function RunEvent(target: string, ports: seq<int>, outcomes: seq<Outcome>, started: int, ended: int, i: nat): Event
    requires i <= |outcomes| + 1
  {
    var kind := if i == 0 then EngineStarted else if i <= |outcomes| then PortCompleted else EngineCompleted;
    var port := if kind == PortCompleted then Some(outcomes[i - 1].port) else None;
    var status := if i == 0 then "running" else if i <= |outcomes| then outcomes[i - 1].status else "success";
    var elapsed := if i == 0 then started else if i <= |outcomes| then outcomes[i - 1].elapsedMs else ended;
    var completed := if i <= |outcomes| then i else |outcomes|;
    Event(1, "native_event", Go, BannerGrab, kind, target, i + 1, elapsed, port, status, completed,
          |ports|, if |ports| < GoPool.MAX_BANNER_WORKERS then |ports| else GoPool.MAX_BANNER_WORKERS)
  }

  /** What the Python side expects of the Go engine: it asks for 32 workers, and at most as many as there are ports. */
  function BridgeExpectation(target: string, ports: seq<int>): (x: Expectation)
    ensures x.engine == Go && x.target == target && x.ports == Elems(ports)
    ensures x.workers == if |ports| < 32 then |ports| else 32
  {
    Expectation(Go, target, Elems(ports), if |ports| < 32 then |ports| else 32)
  }

  function RunTrace(target: string, ports: seq<int>, outcomes: seq<Outcome>, started: int, ended: int): seq<Event> {
    seq(|outcomes| + 2, i requires 0 <= i < |outcomes| + 2 => RunEvent(target, ports, outcomes, started, ended, i))
  }

  /** The event side of `run`: the start, one event at every call of the sink, and the end. */
  method EmitRun(target: string, ports: seq<int>, outcomes: seq<Outcome>, started: int, ended: int)
    returns (trace: seq<Event>)
    ensures trace == RunTrace(target, ports, outcomes, started, ended)
    ensures |trace| == |outcomes| + 2 && trace[0].elapsedMs == started && trace[|outcomes| + 1].elapsedMs == ended
    ensures forall k :: 0 <= k < |outcomes| ==>
      && trace[k + 1].port == Some(outcomes[k].port) && trace[k + 1].status == outcomes[k].status
      && trace[k + 1].elapsedMs == outcomes[k].elapsedMs && trace[k + 1].completed == k + 1
  {
    var workers := if |ports| < GoPool.MAX_BANNER_WORKERS then |ports| else GoPool.MAX_BANNER_WORKERS;
    var events := new NativeEventWriter(target, |ports|, workers);
    events.Emit(EngineStarted, "running", None, 0, started);
    var completed := 0;
    for k := 0 to |outcomes|
      invariant completed == k && events.sequence == k + 1
      invariant events.emitted == RunTrace(target, ports, outcomes, started, ended)[..k + 1]
    {
      completed := completed + 1;
      events.Emit(PortCompleted, outcomes[k].status, Some(outcomes[k].port), completed, outcomes[k].elapsedMs);
    }
    events.Emit(EngineCompleted, "success", None, completed, ended);
    trace := events.emitted;
  }

  function Called(outcomes: seq<Outcome>): seq<int> {
    seq(|outcomes|, i requires 0 <= i < |outcomes| => outcomes[i].port)
  }

  lemma SamePortsSameCount(ports: seq<int>, calls: seq<int>)
    requires NoRepeats(ports) && multiset(calls) == multiset(ports)
    ensures NoRepeats(calls) && Elems(calls) == Elems(ports) && |calls| == |ports| == |Elems(ports)|
  {
    GoPool.SubBagNoRepeats(calls, ports);
    NoRepeatsByCount(ports);
    assert |multiset(calls)| == |calls| && |multiset(ports)| == |ports|;
    forall x ensures x in calls <==> x in ports {
      assert x in calls <==> x in multiset(calls);
    }
  }

  /** Every event of a run that delivers requested ports is valid, numbered and correlated; the middle ones are
      port events. */
  lemma RunEventFits(target: string, ports: seq<int>, outcomes: seq<Outcome>, started: int, ended: int, i: nat)
    requires i <= |outcomes| + 1 && |outcomes| == |ports| == |Elems(ports)| && ports != []
    requires Elems(Called(outcomes)) == Elems(ports) && (forall k :: 0 <= k < |ports| ==> 1 <= ports[k] <= 65535)
    requires 0 <= started && 0 <= ended && forall k :: 0 <= k < |outcomes| ==> 0 <= outcomes[k].elapsedMs
    ensures var x := BridgeExpectation(target, ports);
      var e := RunEvent(target, ports, outcomes, started, ended, i);
      StreamEvent(x, e, i + 1) && (0 < i <= |outcomes| ==> PortEvent(x, e, i))
  {
    if 0 < i <= |outcomes| {
      assert Called(outcomes)[i - 1] in Elems(Called(outcomes));
    }
  }

  lemma DeliveredTraceIsProtocol(target: string, ports: seq<int>, outcomes: seq<Outcome>, started: int, ended: int)
    requires ports != [] && NoRepeats(ports) && (forall i :: 0 <= i < |ports| ==> 1 <= ports[i] <= 65535)
    requires multiset(Called(outcomes)) == multiset(ports)
    requires 0 <= started && 0 <= ended && forall k :: 0 <= k < |outcomes| ==> 0 <= outcomes[k].elapsedMs
    ensures ProtocolTrace(BridgeExpectation(target, ports),
                          RunTrace(target, ports, outcomes, started, ended))
  {
    var x := BridgeExpectation(target, ports);
    var trace := RunTrace(target, ports, outcomes, started, ended);
    SamePortsSameCount(ports, Called(outcomes));
    NoRepeatsByCount(ports);
    forall i | 0 <= i < |trace|
      ensures StreamEvent(x, trace[i], i + 1) && (0 < i <= |outcomes| ==> PortEvent(x, trace[i], i))
    {
      RunEventFits(target, ports, outcomes, started, ended, i);
    }
    forall i, j | 0 < i < j <= |outcomes| ensures trace[i].port != trace[j].port {
      assert Called(outcomes)[i - 1] != Called(outcomes)[j - 1];
    }
  }

  /** Producer and acceptor agree.  Take any interleaving of the Go pool on a normalised request in which nothing but
      a failing sink cancels, as in `run`.  If it ends and the sink never failed, the events `run` emits are a trace
      on which the Python stream for the same request succeeds. */
  lemma SuccessfulRunIsAccepted(target: string, ports: seq<int>, steps: seq<GoPool.Step>, outcomes: seq<Outcome>,
                                started: int, ended: int)
    requires ports != [] && NoRepeats(ports) && (forall i :: 0 <= i < |ports| ==> 1 <= ports[i] <= 65535)
    requires GoPool.Legal(GoPool.Start(ports), steps)
    requires forall k :: 0 <= k < |steps| ==> GoPool.Internal(steps[k])
    requires var p := GoPool.Execute(GoPool.Start(ports), steps);
      p.consumerDone && !p.sinkFailed && Called(outcomes) == p.calls
    requires 0 <= started && 0 <= ended && forall k :: 0 <= k < |outcomes| ==> 0 <= outcomes[k].elapsedMs
    ensures var x := BridgeExpectation(target, ports);
      var trace := RunTrace(target, ports, outcomes, started, ended);
      && Accepts(x, trace) && CompleteTrace(x, trace)
      && x.workers == |GoPool.Start(ports).workers| == if |ports| < 32 then |ports| else 32
  {
    GoPool.OnlyTheSinkCancels(GoPool.Start(ports), steps);
    GoPool.UncancelledDeliversAll(ports, steps);
    DeliveredTraceIsProtocol(target, ports, outcomes, started, ended);
    FinishSucceedsExactly(BridgeExpectation(target, ports), RunTrace(target, ports, outcomes, started, ended));
    GoPool.StartsWorkers(ports);
  }

  /** The whole way of a successful run's events: emitted by the engine, read by the stream that the bridge opens for
      the same request, and finished. */
  method ReceiveRun(target: string, ports: seq<int>, ghost steps: seq<GoPool.Step>, outcomes: seq<Outcome>,
                    started: int, ended: int)
    returns (r: Result<seq<Event>, bool>)
    requires ports != [] && NoRepeats(ports) && (forall i :: 0 <= i < |ports| ==> 1 <= ports[i] <= 65535)
    requires GoPool.Legal(GoPool.Start(ports), steps)
    requires forall k :: 0 <= k < |steps| ==> GoPool.Internal(steps[k])
    requires var p := GoPool.Execute(GoPool.Start(ports), steps);
      p.consumerDone && !p.sinkFailed && Called(outcomes) == p.calls
    requires 0 <= started && 0 <= ended && forall k :: 0 <= k < |outcomes| ==> 0 <= outcomes[k].elapsedMs
    ensures r == Ok(RunTrace(target, ports, outcomes, started, ended))
  {
    SuccessfulRunIsAccepted(target, ports, steps, outcomes, started, ended);
    NoRepeatsByCount(ports);
    assert ports[0] in Elems(ports);
    var trace := EmitRun(target, ports, outcomes, started, ended);
    var stream := new NativeEventStream(Go, target, Elems(ports), if |ports| < 32 then |ports| else 32);
    assert stream.expected == BridgeExpectation(target, ports);
    stream.Read(trace);
    r := stream.Finish();
  }
}
