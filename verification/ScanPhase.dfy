/** The scan phase of one endpoint over a store with incremental commits: the executor's callback and the periodic
    flusher share a buffer under one lock, and a commit lies between taking a batch and releasing the lock.

    The state is the volatile part only.  The durable part is the endpoint's progress `p` in the store, which only
    a successful commit changes, through `Recorded`. */
module ScanPhase {
  import opened Common
  import opened Session
  import opened StoreV2Increments

  /** Who holds the callback lock while a batch is being committed. */
  datatype Holder = Free | Callback | Flusher | Final

  /** Scanning; the scan has returned and the flusher is being joined; the flusher is gone; the last flush failed. */
  datatype Stage = Scanning | Joining | Joined | Raised

  datatype Phase = Phase(
    request: set<int>,            // the ports the executor was asked for
    pending: set<int>, seen: set<int>,
    buffered: seq<PortResult>,
    inflight: seq<PortResult>,    // the batch between `buffered.clear()` and the end of its commit
    holder: Holder, stage: Stage,
    failing: bool,                // the flusher has left the lock after a failed commit, its error is not on record yet
    flushFailed: bool,            // the periodic flusher has recorded an error
    dropped: set<int>)            // ports of batches whose commit failed; they stay pending in the store

  function Begin(p: Progress): Phase {
    Phase(p.pending, p.pending, p.completed.Keys, [], [], Free, Scanning, false, false, {})
  }

  /** The two guards of the callback, and the checks before it takes the lock. */
  predicate Accepts(ph: Phase, id: Identity, r: PortResult) {
    && ph.stage == Scanning && ph.holder == Free && !ph.flushFailed
    && Canonical(r, id) && r.port in ph.pending && r.port !in ph.seen
  }

  function Take(ph: Phase, holder: Holder): Phase {
    ph.(inflight := ph.buffered, buffered := [], holder := holder)
  }

  /** An accepted result is buffered; a full buffer is taken for commit without releasing the lock. */
  function Accept(ph: Phase, r: PortResult, limit: int): Phase {
    var next := ph.(seen := ph.seen + {r.port}, pending := ph.pending - {r.port}, buffered := ph.buffered + [r]);
    if |next.buffered| >= limit then Take(next, Callback) else next
  }

  predicate FlusherCanTake(ph: Phase) {
    && ph.stage in {Scanning, Joining} && ph.holder == Free
    && !ph.failing && !ph.flushFailed && ph.buffered != []
  }

  predicate FinalCanTake(ph: Phase) {
    ph.stage == Joined && ph.holder == Free && !ph.flushFailed && ph.buffered != []
  }

  /** The two that take a batch on their own account; the callback does it as part of a report. */
  predicate CanTake(ph: Phase, holder: Holder) {
    (holder == Flusher && FlusherCanTake(ph)) || (holder == Final && FinalCanTake(ph))
  }

  function Committed(ph: Phase): Phase {
    ph.(inflight := [], holder := Free)
  }

  /** A failed commit drops its batch.  The final flush raises the error; the periodic flusher leaves the lock with it,
      so a report may still come in before it is on record. */
  function CommitFailed(ph: Phase): Phase {
    ph.(inflight := [], holder := Free, dropped := ph.dropped + Elems(Ports(ph.inflight)),
        failing := ph.failing || ph.holder == Flusher,
        stage := if ph.holder == Final then Raised else ph.stage)
  }

  /** The flusher records its error and ends. */
  function FlushErrorRecorded(ph: Phase): Phase {
    ph.(failing := false, flushFailed := true)
  }

  /** The flusher has ended, or ends now: it is not inside a commit and has no error left to record. */
  predicate CanJoin(ph: Phase) { ph.stage == Joining && ph.holder != Flusher && !ph.failing }

  /** How an exception leaves a run: as a cancellation or as an error, each with its normalised text. */
  datatype Fault = CancelFault(text: string) | ErrorFault(text: string)

  predicate TextOk(f: Fault) { ValidText(Some(f.text)) }

  /** Ready for the checks after the scan: joined, lock free, nothing left to flush. */
  predicate Drained(ph: Phase) {
    ph.stage == Joined && ph.holder == Free && (ph.buffered == [] || ph.flushFailed)
  }

  predicate Over(ph: Phase) { Drained(ph) || (ph.stage == Raised && ph.holder == Free) }

  /** Which error the phase raises once it is over: the last flush's, a flusher's, the executor's, or missing ports. */
  predicate RaisesAfter(p: Progress, ph: Phase, raised: Option<Fault>, fault: Fault) {
    && Over(ph)
    && if ph.stage == Raised then true
       else if ph.flushFailed then fault.ErrorFault?
       else if raised.Some? then fault == raised.value
       else p.pending != {} && fault.ErrorFault?
  }

  predicate SucceedsAfter(p: Progress, ph: Phase, raised: Option<Fault>) {
    Drained(ph) && !ph.flushFailed && raised.None? && p.pending == {}
  }

  function Unconfirmed(ph: Phase): seq<PortResult> { ph.inflight + ph.buffered }

  /** Conservation and the size bounds.  `p` is the endpoint's progress in the store. */
  predicate Inv(p: Progress, ph: Phase, limit: int) {
    var waiting := Elems(Ports(Unconfirmed(ph)));
    && ValidProgress(p)
    && NoRepeats(Ports(Unconfirmed(ph)))
    && (forall k :: 0 <= k < |Unconfirmed(ph)| ==> Canonical(Unconfirmed(ph)[k], p.identity))
    && ph.pending !! waiting && ph.pending !! ph.dropped && waiting !! ph.dropped
    && p.pending == ph.pending + waiting + ph.dropped
    && p.pending <= ph.request <= p.pending + p.completed.Keys
    && ph.pending == ph.request - ph.seen
    && (ph.holder == Free ==> ph.inflight == [] && |ph.buffered| < limit)
    && (ph.holder != Free ==> ph.buffered == [] && 0 < |ph.inflight| <= limit)
    && (ph.holder == Flusher || ph.failing ==> ph.stage in {Scanning, Joining})
    && (ph.holder == Flusher ==> !ph.failing) && (ph.holder == Final ==> ph.stage == Joined)
  }

  lemma BeginInv(p: Progress, limit: int)
    requires ValidProgress(p) && limit >= 1
    ensures Inv(p, Begin(p), limit)
  {
    assert Ports([]) == [];
  }

  lemma AcceptInv(p: Progress, ph: Phase, r: PortResult, limit: int)
    requires Inv(p, ph, limit) && Accepts(ph, p.identity, r)
    ensures Inv(p, Accept(ph, r, limit), limit)
  {
    var next := Accept(ph, r, limit);
    assert Unconfirmed(next) == Unconfirmed(ph) + [r];
    assert Ports(Unconfirmed(next)) == Ports(Unconfirmed(ph)) + [r.port];
    assert r.port !in Elems(Ports(Unconfirmed(ph)));
    NoRepeatsAppend(Ports(Unconfirmed(ph)), [r.port]);
    ElemsAppend(Ports(Unconfirmed(ph)), [r.port]);
  }

  lemma TakeInv(p: Progress, ph: Phase, holder: Holder, limit: int)
    requires Inv(p, ph, limit)
    requires CanTake(ph, holder)
    ensures Inv(p, Take(ph, holder), limit)
  {
    assert Unconfirmed(Take(ph, holder)) == Unconfirmed(ph);
  }

  /** Every batch handed to the store is one the store accepts: non-empty, within the limit, distinct pending ports. */
  lemma BatchIsAcceptable(p: Progress, ph: Phase, limit: int)
    requires Inv(p, ph, limit) && ph.holder != Free
    ensures 0 < |ph.inflight| <= limit && Appendable(p, ph.inflight)
  {
    assert Unconfirmed(ph) == ph.inflight;
    forall k | 0 <= k < |ph.inflight| ensures ph.inflight[k].port in p.pending {
      assert Ports(ph.inflight)[k] in Elems(Ports(ph.inflight));
    }
  }

  /** A commit moves exactly its batch from unconfirmed to confirmed. */
  lemma CommitInv(p: Progress, ph: Phase, limit: int, plan: Plan)
    requires Inv(p, ph, limit) && ph.holder != Free && AccountsFor(p, plan) && limit >= 1
    ensures Inv(Recorded(p, ph.inflight), Committed(ph), limit) && AccountsFor(Recorded(p, ph.inflight), plan)
  {
    BatchIsAcceptable(p, ph, limit);
    RecordedIsValid(p, ph.inflight, plan);
    assert Unconfirmed(ph) == ph.inflight;
    assert Unconfirmed(Committed(ph)) == [] && Ports([]) == [];
    var q := Recorded(p, ph.inflight);
    assert q.completed.Keys == p.completed.Keys + Elems(Ports(ph.inflight));
  }

  lemma CommitFailedInv(p: Progress, ph: Phase, limit: int)
    requires Inv(p, ph, limit) && ph.holder != Free && limit >= 1
    ensures Inv(p, CommitFailed(ph), limit)
  {
    assert Unconfirmed(ph) == ph.inflight;
    assert Unconfirmed(CommitFailed(ph)) == [] && Ports([]) == [];
  }

  /** Bounded loss: while no commit has failed, at most one batch of accepted results is unconfirmed, and the ports
      still pending in the store are the ones not accepted yet plus those. */
  lemma AtMostOneBatchUnconfirmed(p: Progress, ph: Phase, limit: int)
    requires Inv(p, ph, limit)
    ensures |Unconfirmed(ph)| <= limit
    ensures |p.pending| == |ph.pending| + |Unconfirmed(ph)| + |ph.dropped|
    ensures ph.dropped == {} ==> |p.pending - ph.pending| <= limit
  {
    var waiting := Elems(Ports(Unconfirmed(ph)));
    NoRepeatsByCount(Ports(Unconfirmed(ph)));
    assert |waiting| == |Unconfirmed(ph)|;
    assert |ph.pending + waiting + ph.dropped| == |ph.pending| + |waiting| + |ph.dropped|;
    if ph.dropped == {} { assert p.pending - ph.pending == waiting; }
  }

  /** When the phase is drained and no flush has failed, what the store still lacks is what was never accepted or
      was dropped by a failed commit: every accepted result of a successful phase is confirmed. */
  lemma DrainedIsConfirmed(p: Progress, ph: Phase, limit: int)
    requires Inv(p, ph, limit) && Drained(ph) && !ph.flushFailed
    ensures p.pending == ph.pending + ph.dropped
  {
    assert Unconfirmed(ph) == [] && Ports([]) == [];
  }

  /** Conservation of what was asked for: every requested port is not reported yet, waiting for a commit, dropped by a
      failed one, or confirmed since the scan began, and it is only one of these. */
  lemma RequestIsConserved(p: Progress, ph: Phase, limit: int)
    requires Inv(p, ph, limit)
    ensures var waiting, confirmed := Elems(Ports(Unconfirmed(ph))), ph.request * p.completed.Keys;
      && ph.request == ph.pending + waiting + ph.dropped + confirmed
      && |ph.request| == |ph.pending| + |Unconfirmed(ph)| + |ph.dropped| + |confirmed|
  {
    var confirmed := ph.request * p.completed.Keys;
    AtMostOneBatchUnconfirmed(p, ph, limit);
    assert ph.request == p.pending + confirmed && p.pending !! confirmed;
    assert |p.pending + confirmed| == |p.pending| + |confirmed|;
  }

  // ---------- What the guards refuse ----------

  /** A move of the callback, the flusher or the end of the scan, in the order they get the callback lock. */
  datatype Move =
    Reports(result: PortResult) | Takes(holder: Holder) | Commits | CommitFails | FlusherFails | Returns | Joins

  predicate CanMove(ph: Phase, id: Identity, m: Move) {
    match m
    case Reports(r) => Accepts(ph, id, r)
    case Takes(holder) => CanTake(ph, holder)
    case Commits => ph.holder != Free
    case CommitFails => ph.holder != Free
    case FlusherFails => ph.failing
    case Returns => ph.stage == Scanning && ph.holder != Callback
    case Joins => CanJoin(ph)
  }

  function Moved(ph: Phase, m: Move, limit: int): Phase {
    match m
    case Reports(r) => Accept(ph, r, limit)
    case Takes(holder) => Take(ph, holder)
    case Commits => Committed(ph)
    case CommitFails => CommitFailed(ph)
    case FlusherFails => FlushErrorRecorded(ph)
    case Returns => ph.(stage := Joining)
    case Joins => ph.(stage := Joined)
  }

  function After(ph: Phase, moves: seq<Move>, limit: int): Phase {
    if moves == [] then ph else Moved(After(ph, moves[..|moves| - 1], limit), moves[|moves| - 1], limit)
  }

  predicate Possible(ph: Phase, id: Identity, moves: seq<Move>, limit: int) {
    forall k :: 0 <= k < |moves| ==> CanMove(After(ph, moves[..k], limit), id, moves[k])
  }

  /** The ports the callback has accepted in these moves. */
  function Reported(moves: seq<Move>): set<int> {
    set k | 0 <= k < |moves| && moves[k].Reports? :: moves[k].result.port
  }

  lemma ReportedGrows(moves: seq<Move>)
    requires moves != []
    ensures var last := moves[|moves| - 1];
      Reported(moves) == Reported(moves[..|moves| - 1]) + PortsOf(last)
  {
    var front := moves[..|moves| - 1];
    forall x | x in Reported(front) ensures x in Reported(moves) {
      var k :| 0 <= k < |front| && front[k].Reports? && front[k].result.port == x;
      assert moves[k] == front[k];
    }
    assert moves[|moves| - 1].Reports? ==> moves[|moves| - 1].result.port in Reported(moves);
  }

  function PortsOf(m: Move): set<int> {
    if m.Reports? then {m.result.port} else {}
  }

  lemma MovedVariables(ph: Phase, m: Move, limit: int)
    ensures var next := Moved(ph, m, limit);
      next.request == ph.request && next.pending == ph.pending - PortsOf(m) && next.seen == ph.seen + PortsOf(m)
  {
  }

  lemma {:induction false} SharedVariables(p: Progress, moves: seq<Move>, limit: int)
    requires Possible(Begin(p), p.identity, moves, limit)
    ensures var ph := After(Begin(p), moves, limit);
      && ph.request == p.pending && ph.pending == p.pending - Reported(moves)
      && ph.seen == p.completed.Keys + Reported(moves)
  {
    if moves != [] {
      var front := moves[..|moves| - 1];
      forall k | 0 <= k < |front| ensures CanMove(After(Begin(p), front[..k], limit), p.identity, front[k]) {
        assert front[..k] == moves[..k];
      }
      SharedVariables(p, front, limit);
      ReportedGrows(moves);
      MovedVariables(After(Begin(p), front, limit), moves[|front|], limit);
    }
  }

  /** In every phase a scan can reach, with any flushes and failed commits in between, the callback refuses exactly a
      result that is not canonical, was not asked for or was reported before, unless the phase itself refuses all.
      So an executor that reports distinct requested ports never trips a guard, whether it ends well or not. */
  lemma GuardsRefuseExactly(p: Progress, moves: seq<Move>, limit: int, r: PortResult)
    requires ValidProgress(p) && Possible(Begin(p), p.identity, moves, limit)
    ensures var ph := After(Begin(p), moves, limit);
      Accepts(ph, p.identity, r) <==>
        && ph.stage == Scanning && ph.holder == Free && !ph.flushFailed
        && Canonical(r, p.identity) && r.port in p.pending && r.port !in Reported(moves)
  {
    SharedVariables(p, moves, limit);
  }
}
