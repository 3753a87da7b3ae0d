/** The Rust bridge as the executor of the single-target runner: what `RustBridge.Scan` guarantees is what the runner
    relies on, so the scan phase ends exactly as the bridge does. */
module ExecutorContract {
  import opened Common
  import opened Session
  import opened ScanPhase
  import opened ExecutorScript
  import opened SessionRuntime
  import B = RustBridge
  import R = SingleRunner

  /** The ports that are reported in these turns, in order. */
  function ReportOrder(turns: seq<Turn>): seq<int> {
    if turns == [] then []
    else
      var last := turns[|turns| - 1];
      ReportOrder(turns[..|turns| - 1]) + if last.Reported? then [last.result.port] else []
  }

  /** The callback gets canonical results and finds no cancel event, under a clock that does not go back. */
  predicate Undisturbed(turns: seq<Turn>, id: Identity, from: int, last: int) {
    && from <= last
    && (forall k :: 0 <= k < |turns| ==>
          && from <= turns[k].now <= last
          && (turns[k].Reported? ==> !turns[k].cancelled && Canonical(turns[k].result, id)))
    && forall j, k :: 0 <= j < k < |turns| ==> turns[j].now <= turns[k].now
  }

  /** The turns of a list of reported ports: its documents, and the flusher's turns in between. */
  ghost predicate Presents(see: seq<int> -> seq<Turn>, id: Identity, requested: set<int>, from: int, last: int) {
    forall called :: NoRepeats(called) && Elems(called) <= requested ==>
      ReportOrder(see(called)) == called && Undisturbed(see(called), id, from, last)
  }

  predicate DistinctTurns(turns: seq<Turn>) {
    forall j, k :: 0 <= j < k < |turns| && turns[j].Reported? && turns[k].Reported? ==>
      turns[j].result.port != turns[k].result.port
  }

  /** The reports are without repetition exactly when the reporting turns have distinct ports. */
  lemma {:induction false} DistinctReports(turns: seq<Turn>)
    ensures Elems(ReportOrder(turns)) == ReportedPorts(turns)
    ensures NoRepeats(ReportOrder(turns)) <==> DistinctTurns(turns)
  {
    if turns != [] {
      var n := |turns| - 1;
      var front, last := turns[..n], turns[n];
      var tail := if last.Reported? then [last.result.port] else [];
      DistinctReports(front);
      NoRepeatsAppend(ReportOrder(front), tail);
      ElemsAppend(ReportOrder(front), tail);
      LastReport(turns);
      DistinctTurnsGrow(turns);
    }
  }

  lemma DistinctTurnsGrow(turns: seq<Turn>)
    requires turns != []
    ensures var front, last := turns[..|turns| - 1], turns[|turns| - 1];
      DistinctTurns(turns) <==>
        DistinctTurns(front) && (last.Reported? ==> last.result.port !in ReportedPorts(front))
  {
    var front, last := turns[..|turns| - 1], turns[|turns| - 1];
    assert forall k :: 0 <= k < |front| ==> front[k] == turns[k];
    if DistinctTurns(front) && (last.Reported? ==> last.result.port !in ReportedPorts(front)) {
      forall j, k | 0 <= j < k < |turns| && turns[j].Reported? && turns[k].Reported?
        ensures turns[j].result.port != turns[k].result.port
      {
        assert k == |front| ==> front[j].result.port in ReportedPorts(front);
      }
    }
  }

  lemma LastReport(turns: seq<Turn>)
    requires turns != []
    ensures var last := turns[|turns| - 1];
      ReportedPorts(turns) == ReportedPorts(turns[..|turns| - 1]) + if last.Reported? then {last.result.port} else {}
  {
    var front := turns[..|turns| - 1];
    forall x | x in ReportedPorts(front) ensures x in ReportedPorts(turns) {
      var k :| 0 <= k < |front| && front[k].Reported? && front[k].result.port == x;
      assert turns[k] == front[k];
    }
    assert turns[|turns| - 1].Reported? ==> turns[|turns| - 1].result.port in ReportedPorts(turns);
  }

  /** What the bridge guarantees of the ports its callback is called with is what the runner relies on: an undisturbed
      scan is honest exactly when they are distinct requested ports, and then it succeeds exactly when the executor
      does and they are all of the request. */
  lemma BridgeIsHonest(executor: Executor, id: Identity, requested: set<int>, from: int)
    requires Undisturbed(executor.turns, id, from, executor.lastFlush)
    ensures var called := ReportOrder(executor.turns);
      && (HonestScan(executor, id, requested, from) <==> NoRepeats(called) && Elems(called) <= requested)
      && ReportedPorts(executor.turns) == Elems(called)
      && (HonestScan(executor, id, requested, from) ==>
            (ScanOutcome(executor, requested).None? <==> executor.raised.None? && Elems(called) == requested))
  {
    var turns := executor.turns;
    DistinctReports(turns);
    assert forall k :: 0 <= k < |turns| && turns[k].Reported? ==> turns[k].result.port in ReportedPorts(turns);
    assert HonestScan(executor, id, requested, from) <==> DistinctTurns(turns) && ReportedPorts(turns) <= requested;
    if requested - ReportedPorts(turns) == {} {
      forall x | x in requested ensures x in ReportedPorts(turns) {
        assert x in ReportedPorts(turns) || x in requested - ReportedPorts(turns);
      }
    }
  }

  /** What the runner catches when the bridge returns or raises. */
  function Raised(r: Result<seq<(int, int)>, B.Fault>, text: string): Option<Fault> {
    match r
    case Ok(_) => None
    case Err(CancelledScan) => Some(CancelFault(text))
    case Err(_) => Some(ErrorFault(text))
  }

  /** The scan phase with the bridge as its executor, whatever the engine sends.  Its callback raises nothing, because
      the reports are honest.  However the bridge ends, the phase ends the same way, and the store lacks exactly the
      requested ports that the engine did not deliver. */
  method ScanThroughBridge(runner: SingleTargetSessionRunner, current: Checkpoint, ports: seq<int>,
                           items: seq<B.Turn>, exit: B.Exit, see: seq<int> -> seq<Turn>, lastFlush: int, text: string)
    returns (r: Result<seq<(int, int)>, B.Fault>, called: seq<int>, fault: Option<Fault>, ghost last: nat)
    requires runner.Valid() && runner.world.proc.Started?
    requires runner.world.store == Some(current) && |current.endpoints| == 1
    requires Elems(ports) == current.endpoints[0].pending != {} && B.QueueEnds(items) && ValidText(Some(text))
    requires forall k :: 0 <= k < |items| && items[k].item.Text? && items[k].item.line.Record? ==>
      !items[k].item.line.callbackRaises
    requires Presents(see, current.endpoints[0].identity, Elems(ports), current.updatedAt, lastFlush)
    modifies runner, runner.store
    ensures runner.Valid() && old(runner.trace) <= runner.trace && runner.AfterPhase(fault)
    ensures NoRepeats(called) && Elems(called) <= Elems(ports)
    ensures fault == Raised(r, text) && (fault.Some? ==> fault.value.text == text)
    ensures B.StopsAt(items, last, Elems(ports))
    ensures fault.Some? && fault.value.CancelFault? <==>
            items[last].cancelled || (items[last].item == B.EndOfStream && exit.WaitCancelled?)
    ensures R.Endpoint(runner.world).pending == Elems(ports) - Elems(called)
    ensures fault.None? <==>
      && (exists e: nat :: B.EndsWell(items, e, Elems(ports)) && Elems(B.Reported(items, e)) == Elems(ports))
      && exit == B.Exited(0, true)
  {
    r, called, last := B.Scan(ports, items, exit);
    var executor := Executor(see(called), Raised(r, text), lastFlush, _ => Interrupted);
    var id := current.endpoints[0].identity;
    BridgeIsHonest(executor, id, Elems(ports), current.updatedAt);
    AtRest(runner.Limit(), runner.trace, runner.world);
    assert B.AllInRange(ports) by {
      forall k | 0 <= k < |ports| ensures PortInRange(ports[k]) { assert ports[k] in Elems(ports); }
    }
    fault := runner.CompleteScanPhase(current, executor);
  }
}
