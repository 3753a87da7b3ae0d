/** The stream loop of the Rust bridge: it discharges the executor contract the session runners rely on. */
module RustBridge {
  import opened Common
  import opened Session

  datatype Fault = BadPort | NoPorts | CancelledScan | StreamError | BadLine | UnrequestedPort | DuplicatePort
                 | CallbackRaised | ExitCode | MissingPorts | EventStreamFailed

  /** A line of the engine's output: not a valid record for this target, or the record of a port, together with what
      the runner's callback does with it. */
  datatype Line = Invalid | Record(port: int, result: int, callbackRaises: bool)

  datatype Item = NoItem | Text(line: Line) | EndOfStream | ReaderError

  /** One turn of the loop: is the cancel event set, and what does the queue yield within its timeout? */
  datatype Turn = Turn(cancelled: bool, item: Item)

  /** What happens after the stream: waiting is cancelled, or the process exits and the event stream finishes or not. */
  datatype Exit = WaitCancelled | Exited(code: int, eventsFinish: bool)

  predicate LastTurn(t: Turn) { t.cancelled || t.item in {EndOfStream, ReaderError} }

  /** The reader thread always puts an end marker last. */
  predicate QueueEnds(turns: seq<Turn>) {
    turns != [] && LastTurn(turns[|turns| - 1])
  }

  predicate AllInRange(ports: seq<int>) { forall k :: 0 <= k < |ports| ==> 1 <= ports[k] <= 65535 }

  /** `_normalize_ports`: the ascending distinct ports, unless one is out of range or there is none. */
  method NormalizePorts(ports: seq<int>) returns (r: Result<seq<int>, Fault>)
    ensures r.Ok? <==> ports != [] && AllInRange(ports)
    ensures r.Ok? ==> StrictlyIncreasing(r.value) && Elems(r.value) == Elems(ports)
    ensures r.Err? ==> r.error == if ports == [] then NoPorts else BadPort
  {
    var distinct: seq<int>, normalized: set<int> := [], {};
    for k := 0 to |ports|
      invariant forall j :: 0 <= j < k ==> 1 <= ports[j] <= 65535
      invariant normalized == Elems(ports[..k]) == Elems(distinct) && NoRepeats(distinct)
    {
      if !PortInRange(ports[k]) {
        return Err(BadPort);
      }
      assert ports[..k + 1] == ports[..k] + [ports[k]];
      if ports[k] !in normalized {
        distinct := distinct + [ports[k]];
        normalized := normalized + {ports[k]};
      }
    }
    assert ports[..|ports|] == ports;
    assert |ports| > 0 ==> ports[0] in normalized;
    if normalized == {} {
      return Err(NoPorts);
    }
    assert ports != [];
    return Ok(SortPorts(distinct));
  }

  predicate IsRecord(turn: Turn) { turn.item.Text? && turn.item.line.Record? }

  /** The ports of the records among the first `n` turns, in order. */
  function Reported(turns: seq<Turn>, n: nat): seq<int>
    requires n <= |turns|
  {
    if n == 0 then []
    else
      var item := turns[n - 1].item;
      Reported(turns, n - 1) + if item.Text? && item.line.Record? then [item.line.port] else []
  }

  /** A turn that lets the loop go on: nothing yet, or the record of a requested port that was not reported before. */
  predicate GoesOn(turns: seq<Turn>, k: nat, requested: set<int>)
    requires k < |turns|
  {
    var turn := turns[k];
    && !turn.cancelled
    && (turn.item.NoItem?
        || (turn.item.Text? && turn.item.line.Record? && !turn.item.line.callbackRaises
            && turn.item.line.port in requested && turn.item.line.port !in Reported(turns, k)))
  }

  /** The first turn that does not let the loop go on. */
  predicate StopsAt(turns: seq<Turn>, k: nat, requested: set<int>) {
    k < |turns| && (forall j :: 0 <= j < k ==> GoesOn(turns, j, requested)) && !GoesOn(turns, k, requested)
  }

  /** The stream ends at turn `e`, after records of requested ports only, each at most once. */
  predicate EndsWell(turns: seq<Turn>, e: nat, requested: set<int>) {
    && e < |turns| && !turns[e].cancelled && turns[e].item == EndOfStream
    && forall k :: 0 <= k < e ==> GoesOn(turns, k, requested)
  }

  /** The record of a port at this turn, with the cancel event not set. */
  predicate RecordAt(turns: seq<Turn>, k: nat)
    requires k < |turns|
  {
    !turns[k].cancelled && IsRecord(turns[k])
  }

  /** The records among the first `n` turns, in order. */
  function Records(turns: seq<Turn>, n: nat): seq<(int, int)>
    requires n <= |turns|
  {
    if n == 0 then []
    else
      var item := turns[n - 1].item;
      Records(turns, n - 1) + if item.Text? && item.line.Record? then [(item.line.port, item.line.result)] else []
  }

  lemma {:induction false} ReportedPrefix(turns: seq<Turn>, k: nat, n: nat)
    requires k <= n <= |turns|
    ensures Reported(turns, k) <= Reported(turns, n) && Records(turns, k) <= Records(turns, n)
    ensures |Records(turns, n)| == |Reported(turns, n)|
  {
    if k < n {
      ReportedPrefix(turns, k, n - 1);
    } else if n > 0 {
      ReportedPrefix(turns, n - 1, n - 1);
    }
  }

  /** The record of a turn is in its place, right after those of the turns before it, with its port and its result; and
      there are no other records. */
  lemma RecordsInOrder(turns: seq<Turn>, n: nat, k: nat)
    requires k < n <= |turns|
    ensures |Records(turns, n)| == |Reported(turns, n)| && Reported(turns, 0) == [] && Records(turns, 0) == []
    ensures IsRecord(turns[k]) ==>
      var j, line := |Reported(turns, k)|, turns[k].item.line;
      && |Reported(turns, k + 1)| == j + 1 <= |Reported(turns, n)|
      && Reported(turns, n)[j] == line.port && Records(turns, n)[j] == (line.port, line.result)
    ensures !IsRecord(turns[k]) ==> |Reported(turns, k + 1)| == |Reported(turns, k)|
  {
    ReportedPrefix(turns, k + 1, n);
    ReportedPrefix(turns, k, k);
  }

  /** The stream ended well at this turn and the process has exited. */
  predicate Exits(turns: seq<Turn>, last: nat, requested: set<int>, exit: Exit) {
    EndsWell(turns, last, requested) && exit.Exited?
  }

  /** The port for which the callback has raised, if it has. */
  function RaisedFor(turns: seq<Turn>, last: nat, r: Result<seq<(int, int)>, Fault>): seq<int>
    requires last < |turns|
  {
    if r == Err(CallbackRaised) && RecordAt(turns, last) then [turns[last].item.line.port] else []
  }

  /** Which error is raised when the loop stops at turn `last`: the turn decides, or what comes after the stream. */
  predicate RaisesExactly(turns: seq<Turn>, last: nat, requested: set<int>, exit: Exit,
                          r: Result<seq<(int, int)>, Fault>)
    requires last < |turns|
  {
    var item, reported := turns[last].item, Reported(turns, last);
    var cancelled, complete := turns[last].cancelled, Elems(reported) == requested;
    && (r == Err(CancelledScan) <==> cancelled || (item == EndOfStream && exit.WaitCancelled?))
    && (r == Err(StreamError) <==> !cancelled && item == ReaderError)
    && (r == Err(BadLine) <==> !cancelled && item == Text(Invalid))
    && (r == Err(UnrequestedPort) <==> RecordAt(turns, last) && item.line.port !in requested)
    && (r == Err(DuplicatePort) <==> RecordAt(turns, last) && item.line.port in requested && item.line.port in reported)
    && (r == Err(CallbackRaised) <==>
          RecordAt(turns, last) && item.line.port in requested && item.line.port !in reported)
    && (r == Err(ExitCode) <==> Exits(turns, last, requested, exit) && exit.code != 0)
    && (r == Err(MissingPorts) <==> Exits(turns, last, requested, exit) && exit.code == 0 && !complete)
    && (r == Err(EventStreamFailed) <==>
          Exits(turns, last, requested, exit) && exit.code == 0 && complete && !exit.eventsFinish)
    && (r.Ok? ==> r.value == Records(turns, last))
  }

  /** The executor contract.  `called` are the ports the callback was called with, in order: distinct and requested,
      however the scan ends, and exactly the ones the engine reported up to there.  It returns normally exactly when the
      stream ended well with every requested port and the process and its event stream ended well too; and the first
      turn that does not go on, `last`, or what comes after the stream, decides which error is raised. */
  method Scan(ports: seq<int>, turns: seq<Turn>, exit: Exit)
    returns (r: Result<seq<(int, int)>, Fault>, called: seq<int>, ghost last: nat)
    requires QueueEnds(turns)
    ensures NoRepeats(called) && Elems(called) <= Elems(ports)
    ensures r.Ok? <==>
      && ports != [] && AllInRange(ports)
      && (exists e: nat :: EndsWell(turns, e, Elems(ports)) && Elems(Reported(turns, e)) == Elems(ports))
      && exit == Exited(0, true)
    ensures r.Ok? ==> Elems(called) == Elems(ports)
    ensures r.Ok? ==> |r.value| == |called| && forall k :: 0 <= k < |called| ==> r.value[k].0 == called[k]
    ensures !AllInRange(ports) ==> r == Err(BadPort) && called == []
    ensures (r == Err(NoPorts) <==> ports == []) && (r == Err(BadPort) <==> !AllInRange(ports))
    ensures ports != [] && AllInRange(ports) ==>
      && StopsAt(turns, last, Elems(ports)) && RaisesExactly(turns, last, Elems(ports), exit, r)
      && called == Reported(turns, last) + RaisedFor(turns, last, r)
  {
    called, last := [], 0;
    var normalized := NormalizePorts(ports);
    if normalized.Err? {
      return Err(normalized.error), called, 0;
    }
    var requested: set<int> := set x | x in normalized.value;
    assert requested == Elems(ports);
    r, called, last := Stream(requested, turns);
    NoOtherEnd(turns, last, requested);
    if r.Err? {
      return;
    }
    if exit.WaitCancelled? {
      r := Err(CancelledScan);
      return;
    }
    if exit.code != 0 {
      r := Err(ExitCode);
      return;
    }
    forall x | x in requested && requested - Elems(called) == {} ensures x in Elems(called) {
      assert x in Elems(called) || x in requested - Elems(called);
    }
    if requested - Elems(called) != {} {
      r := Err(MissingPorts);
    } else if !exit.eventsFinish {
      r := Err(EventStreamFailed);
    }
  }

  /** What the loop ends with at its last turn. */
  predicate LoopEnds(turns: seq<Turn>, k: nat, requested: set<int>, r: Result<seq<(int, int)>, Fault>)
    requires k < |turns|
  {
    var turn := turns[k];
    if turn.cancelled then r == Err(CancelledScan)
    else match turn.item
      case NoItem => false
      case EndOfStream => r == Ok(Records(turns, k))
      case ReaderError => r == Err(StreamError)
      case Text(Invalid) => r == Err(BadLine)
      case Text(Record(port, _, _)) =>
        if port !in requested then r == Err(UnrequestedPort)
        else if port in Reported(turns, k) then r == Err(DuplicatePort)
        else r == Err(CallbackRaised)
  }

  /** The loop over the queue, up to the first turn that does not go on. */
  method Stream(requested: set<int>, turns: seq<Turn>)
    returns (r: Result<seq<(int, int)>, Fault>, called: seq<int>, last: nat)
    requires QueueEnds(turns)
    ensures StopsAt(turns, last, requested) && LoopEnds(turns, last, requested, r)
    ensures NoRepeats(called) && Elems(called) <= requested
    ensures called == Reported(turns, last) + RaisedFor(turns, last, r)
    ensures r.Ok? ==> called == Reported(turns, last) && |r.value| == |called|
    ensures r.Ok? ==> forall j :: 0 <= j < |called| ==> r.value[j].0 == called[j]
  {
    var completed: set<int>, results: seq<(int, int)>, k: nat := {}, [], 0;
    called := [];
    while true
      invariant k < |turns| && NoRepeats(called) && Elems(called) == completed <= requested
      invariant |results| == |called| && forall j :: 0 <= j < |called| ==> results[j].0 == called[j]
      invariant called == Reported(turns, k) && results == Records(turns, k)
      invariant forall j :: 0 <= j < k ==> GoesOn(turns, j, requested)
      decreases |turns| - k
    {
      var turn := turns[k];
      if turn.cancelled {
        return Err(CancelledScan), called, k;
      }
      match turn.item {
        case NoItem =>
        case EndOfStream => return Ok(results), called, k;
        case ReaderError => return Err(StreamError), called, k;
        case Text(line) =>
          if line.Invalid? {
            return Err(BadLine), called, k;
          }
          if line.port !in requested {
            return Err(UnrequestedPort), called, k;
          }
          if line.port in completed {
            return Err(DuplicatePort), called, k;
          }
          completed := completed + {line.port};
          results := results + [(line.port, line.result)];
          NoRepeatsAppend(called, [line.port]);
          ElemsAppend(called, [line.port]);
          called := called + [line.port];
          if line.callbackRaises {
            return Err(CallbackRaised), called, k;
          }
      }
      k := k + 1;
    }
  }

  /** The stream has no good end but where the loop stops. */
  lemma NoOtherEnd(turns: seq<Turn>, k: nat, requested: set<int>)
    requires StopsAt(turns, k, requested)
    ensures forall e: nat :: EndsWell(turns, e, requested) ==> e == k
  {
    var goes := GoesOn(turns, k, requested);
    forall e: nat | EndsWell(turns, e, requested) ensures e == k {
      assert e < k ==> GoesOn(turns, e, requested);
    }
  }
}
