/** What the steps of the batch runner put into the session, endpoint by endpoint and field by field, and where it comes
    from. */
module BatchContents {
  import opened Common
  import opened Session
  import opened SessionChanges
  import opened BatchRunner
  import opened BatchSafety
  import ScanPhase

  // ---------- The text of a failed session ----------

  /** The errors of the endpoints, in order. */
  function Texts(es: seq<Progress>): seq<string> {
    if es == [] then []
    else (if es[0].error.Some? then [es[0].error.value] else []) + Texts(es[1..])
  }

  function Joined(texts: seq<string>): string {
    if texts == [] then "" else if |texts| == 1 then texts[0] else texts[0] + "; " + Joined(texts[1..])
  }

  lemma {:induction false} TextsLast(es: seq<Progress>)
    requires es != []
    ensures var last := es[|es| - 1].error;
      Texts(es) == Texts(es[..|es| - 1]) + if last.Some? then [last.value] else []
  {
    if |es| == 1 {
      assert es[1..] == [] && es[..0] == [];
    } else {
      TextsLast(es[1..]);
      assert es[1..][..|es| - 2] == es[..|es| - 1][1..];
    }
  }

  lemma {:induction false} JoinedLast(texts: seq<string>, last: string)
    ensures Joined(texts + [last]) == if texts == [] then last else Joined(texts) + "; " + last
  {
    if |texts| > 1 {
      JoinedLast(texts[1..], last);
      assert (texts + [last])[1..] == texts[1..] + [last];
    } else if |texts| == 1 {
      assert (texts + [last])[1..] == [last] && Joined([last]) == last;
    }
  }

  lemma JoinedEmpty(texts: seq<string>)
    requires forall k :: 0 <= k < |texts| ==> texts[k] != ""
    ensures Joined(texts) == "" <==> texts == []
  {
  }

  lemma {:induction false} TextsAreErrors(es: seq<Progress>)
    requires forall i :: 0 <= i < |es| ==> ValidText(es[i].error)
    ensures forall k :: 0 <= k < |Texts(es)| ==> Texts(es)[k] != ""
    ensures Texts(es) == [] <==> forall i :: 0 <= i < |es| ==> es[i].error == None
  {
    if es != [] {
      TextsAreErrors(es[1..]);
      assert forall i :: 1 <= i < |es| ==> es[i] == es[1..][i - 1];
    }
  }

  /** The text of a failed session: the errors of its endpoints in order, with "; " in between. */
  lemma {:induction false} ErrorsInOrder(es: seq<Progress>)
    requires forall i :: 0 <= i < |es| ==> ValidText(es[i].error)
    ensures Errors(es) == Joined(Texts(es))
  {
    if es != [] {
      var front, last := es[..|es| - 1], es[|es| - 1].error;
      ErrorsInOrder(front);
      TextsLast(es);
      TextsAreErrors(front);
      JoinedEmpty(Texts(front));
      if last.Some? {
        JoinedLast(Texts(front), last.value);
      } else {
        assert Texts(es) == Texts(front);
      }
    }
  }

  /** At most the first 2048 characters. */
  predicate CutOff(text: string, whole: string) {
    text <= whole && |text| == if |whole| < 2048 then |whole| else 2048
  }

  // ---------- Every step ----------

  predicate ErrorsCleared(c: Checkpoint, d: Checkpoint) {
    && |d.endpoints| == |c.endpoints|
    && forall i :: 0 <= i < |c.endpoints| ==> OnlyError(c.endpoints[i], d.endpoints[i], None)
  }

  /** One endpoint moves on, by a batch, a banner or an error. */
  predicate WorkerWrote(c: Checkpoint, d: Checkpoint, i: nat, worker: Worker, now: int) {
    && i < |c.endpoints| && OthersStay(c, d, i)
    && if worker.Scans? then
         && Stamped(c, d, Running, None, |worker.phase.inflight|, now)
         && ResultsAdded(c.endpoints[i], d.endpoints[i], worker.phase.inflight)
       else
         && worker.Banners? && worker.grabbed.Some? && Stamped(c, d, Running, None, 1, now)
         && BannerAdded(c.endpoints[i], d.endpoints[i], worker.grabbed.value.port, worker.grabbed.value.banner)
  }

  /** The session after the verdict. */
  predicate Closed(c: Checkpoint, d: Checkpoint, now: int) {
    && d.endpoints == c.endpoints
    && if Texts(c.endpoints) == [] then Stamped(c, d, Completed, None, 1, now)
       else d.lastError.Some? && CutOff(d.lastError.value, Joined(Texts(c.endpoints)))
            && Stamped(c, d, Failed, d.lastError, 1, now)
  }

  /** The successor of the session `c` in a step that writes. */
  predicate Succeeds(w: World, step: Step, c: Checkpoint, d: Checkpoint) {
    match step
    case CancelledBefore(now) =>
      Stamped(c, d, Cancelled, Some("cancelled_before_execution"), 1, now) && d.endpoints == c.endpoints
    case ToRunning(now) => Stamped(c, d, Running, None, 1, now) && ErrorsCleared(c, d)
    case WriteMark(now) =>
      && w.main.Marking? && Stamped(c, d, Running, None, 1, now) && OthersStay(c, d, w.main.endpoint)
      && OnlyError(c.endpoints[w.main.endpoint], d.endpoints[w.main.endpoint], Some(w.main.text))
    case Write(i, now) => i < |w.workers| && WorkerWrote(c, d, i, w.workers[i], now)
    case CloseCancelled(now) =>
      Stamped(c, d, Cancelled, Some("cancelled_by_user"), 1, now) && d.endpoints == c.endpoints
    case Finalize(now) => Closed(c, d, now)
    case _ => false
  }

  predicate Writes(step: Step) {
    step.CancelledBefore? || step.ToRunning? || step.WriteMark? || step.Write? || step.CloseCancelled? || step.Finalize?
  }

  /** The session after a step; the steps that are no store call leave it alone. */
  predicate Becomes(w: World, step: Step, after: Option<Checkpoint>) {
    if step.Create? then after.Some? && NewSession(after.value, step.sessionId, step.plan, step.now)
    else if w.store.None? || !Writes(step) then after == w.store
    else after.Some? && Succeeds(w, step, w.store.value, after.value)
  }

  /** A batch or a banner, added to what is stored or written with a snapshot of it. */
  lemma WrittenContents(cfg: Config, c: Checkpoint, i: nat, worker: Worker, now: int)
    requires ValidConfig(cfg) && i < |c.endpoints| && ValidProgress(c.endpoints[i]) && Wants(worker)
    requires WorkerInv(cfg, c.plan, c.endpoints[i], worker)
    ensures WorkerWrote(c, Written(cfg, c, i, worker, now), i, worker, now)
  {
    if worker.Scans? {
      ScanPhase.BatchIsAcceptable(c.endpoints[i], worker.phase, cfg.limit);
      RecordedAtContents(c, i, worker.phase.inflight, now);
    } else {
      BanneredAtContents(c, i, worker.grabbed.value.port, worker.grabbed.value.banner, now);
    }
  }

  lemma WriteContents(cfg: Config, w: World, step: Step)
    requires Inv(cfg, w) && Enabled(cfg, w, step) && step.Write?
    ensures Becomes(w, step, Apply(cfg, w, step).store)
  {
    assert Live(w.workers[step.endpoint]);
    WrittenContents(cfg, w.store.value, step.endpoint, w.workers[step.endpoint], step.now);
  }

  lemma ClosedContents(c: Checkpoint, now: int)
    requires forall i :: 0 <= i < |c.endpoints| ==> ValidProgress(c.endpoints[i])
    requires AnyError(c.endpoints) || forall i :: 0 <= i < |c.endpoints| ==> !NeedsWork(c.endpoints[i], c.plan)
    ensures Closed(c, Verdict(c, now), now)
  {
    VerdictIsTerminal(c, now);
    ErrorsInOrder(c.endpoints);
    TextsAreErrors(c.endpoints);
  }

  lemma FinalizeContents(cfg: Config, w: World, step: Step)
    requires Inv(cfg, w) && Enabled(cfg, w, step) && step.Finalize? && w.store.Some?
    ensures Becomes(w, step, Apply(cfg, w, step).store)
  {
    FinalizeApplies(cfg, w, step);
    PendingBranchUnreachable(cfg, w.store.value, w);
    ClosedContents(w.store.value, step.now);
  }

  lemma WholeContents(cfg: Config, w: World, step: Step)
    requires Inv(cfg, w) && Enabled(cfg, w, step) && w.store.Some?
    requires step.CancelledBefore? || step.ToRunning? || step.WriteMark? || step.CloseCancelled?
    ensures Becomes(w, step, Apply(cfg, w, step).store)
  {
  }

  lemma CreateContents(cfg: Config, w: World, step: Step)
    requires Enabled(cfg, w, step) && step.Create?
    ensures Becomes(w, step, Apply(cfg, w, step).store)
  {
    CreatedIsValid(step.sessionId, step.plan, step.now);
  }

  lemma QuietContents(cfg: Config, w: World, step: Step)
    requires Enabled(cfg, w, step) && !step.Create? && !Writes(step)
    ensures Apply(cfg, w, step).store == w.store && Apply(cfg, w, step).log == w.log
  {
  }

  /** Every step makes of the session exactly what it should. */
  lemma StepContents(cfg: Config, w: World, step: Step)
    requires Inv(cfg, w) && Enabled(cfg, w, step)
    ensures Becomes(w, step, Apply(cfg, w, step).store)
  {
    if step.Create? {
      CreateContents(cfg, w, step);
    } else if step.Finalize? {
      FinalizeContents(cfg, w, step);
    } else if step.Write? {
      WriteContents(cfg, w, step);
    } else if Writes(step) {
      WholeContents(cfg, w, step);
    } else {
      QuietContents(cfg, w, step);
    }
  }
}
