/** The path the incremental commits are measured against: a runner over a store without `append_results` persists one
    whole checkpoint for every result.  It is followed over the v1 store and over `persist` of the v2 store. */
module SimplePath {
  import opened Common
  import opened Session
  import opened StoreV2Tables
  import opened StoreV2Theorems
  import opened StoreV2Increments
  import opened StoreV2Runs
  import opened RunnerCalls
  import StoreV2
  import V1 = StoreV1

  /** The guards of the runner's callback, before it builds the next checkpoint. */
  predicate Admits(p: Progress, r: PortResult) { Canonical(r, p.identity) && r.port in p.pending }

  /** The loop over `persist` of the v2 store, up to the first result or checkpoint that is refused. */
  function PersistEach(mode: Mode, t: Tables, c: Checkpoint, i: nat, rs: seq<PortResult>, times: seq<int>)
    : Result<Tables, Error>
    requires i < |c.endpoints| && |times| == |rs|
  {
    if rs == [] then Ok(t)
    else
      var n := |rs| - 1;
      var before :- PersistEach(mode, t, c, i, rs[..n], times[..n]);
      if !Admits(RecordAll(c, i, rs[..n], times[..n]).endpoints[i], rs[n]) then Err(BadResult)
      else
        match StoreV2.Persisted(mode, before, RecordAll(c, i, rs, times))
        case (Ok(_), after) => Ok(after)
        case (Err(e), _) => Err(e)
  }

  /** The same loop over the v1 store. */
  function PersistEachV1(mode: Mode, disk: V1.Disk, c: Checkpoint, i: nat, rs: seq<PortResult>, times: seq<int>)
    : Result<V1.Disk, V1.Failure>
    requires i < |c.endpoints| && |times| == |rs|
  {
    if rs == [] then Ok(disk)
    else
      var n := |rs| - 1;
      var before :- PersistEachV1(mode, disk, c, i, rs[..n], times[..n]);
      if !Admits(RecordAll(c, i, rs[..n], times[..n]).endpoints[i], rs[n]) then Err(V1.InvalidCheckpoint)
      else
        match V1.PersistDisk(mode, before, RecordAll(c, i, rs, times))
        case (Ok(_), after) => Ok(after)
        case (Err(e), _) => Err(e)
  }

  predicate NotBefore(from: int, times: seq<int>) { forall k :: 0 <= k < |times| ==> from <= times[k] }

  /** The part of a checkpoint that the chain never touches. */
  predicate Continues(c: Checkpoint, d: Checkpoint, steps: nat) {
    && d.sessionId == c.sessionId && d.plan == c.plan && d.createdAt == c.createdAt
    && d.sequence == c.sequence + steps && |d.endpoints| == |c.endpoints|
    && forall k :: 0 <= k < |c.endpoints| ==> d.endpoints[k].identity == c.endpoints[k].identity
  }

  /** Every checkpoint of the chain is valid, belongs to the session and extends the one before it. */
  lemma {:induction false} PrefixIsValid(c: Checkpoint, i: nat, rs: seq<PortResult>, times: seq<int>)
    requires ValidCheckpoint(c) && i < |c.endpoints| && |times| == |rs| && NotBefore(c.createdAt, times)
    requires Appendable(c.endpoints[i], rs)
    ensures var d := RecordAll(c, i, rs, times);
      && ValidCheckpoint(d) && Continues(c, d, |rs|)
      && d.endpoints[i].pending == Recorded(c.endpoints[i], rs).pending
  {
    var p := c.endpoints[i];
    if rs != [] {
      var now := times[|rs| - 1];
      RecordAllAtOnce(c, i, rs, times);
      RecordedIsValid(p, rs, c.plan);
      var q := WithError(Recorded(p, rs), None);
      assert ValidProgress(q) && AccountsFor(q, c.plan);
      ReplacedIsValid(c, i, q, |rs|, now, None);
      assert RecordAll(c, i, rs, times).endpoints == c.endpoints[i := q];
    } else {
      assert p.pending - ByPort([]).Keys == p.pending;
    }
  }

  /** The guards admit the next result exactly when the results up to it are acceptable as a batch. */
  lemma AdmitsExactly(c: Checkpoint, i: nat, rs: seq<PortResult>, times: seq<int>)
    requires ValidCheckpoint(c) && i < |c.endpoints| && |times| == |rs| && NotBefore(c.createdAt, times) && rs != []
    requires Appendable(c.endpoints[i], rs[..|rs| - 1])
    ensures var n := |rs| - 1;
      Admits(RecordAll(c, i, rs[..n], times[..n]).endpoints[i], rs[n]) <==> Appendable(c.endpoints[i], rs)
  {
    var n := |rs| - 1;
    PrefixIsValid(c, i, rs[..n], times[..n]);
    AppendableSplit(c.endpoints[i], rs[..n], [rs[n]]);
    assert rs == rs[..n] + [rs[n]];
    assert [rs[n]][0] == rs[n];
  }

  /** The next checkpoint of the chain keeps everything the one before it confirmed. */
  lemma NextExtends(c: Checkpoint, i: nat, rs: seq<PortResult>, times: seq<int>)
    requires i < |c.endpoints| && |times| == |rs| && rs != []
    ensures var n := |rs| - 1;
      Extends(RecordAll(c, i, rs[..n], times[..n]), RecordAll(c, i, rs, times))
  {
  }

  lemma PersistNext(mode: Mode, t: Tables, before: Checkpoint, next: Checkpoint)
    requires Holds(mode, t, Some(before)) && ValidCheckpoint(next) && Extends(before, next)
    requires Continues(before, next, 1)
    ensures var (r, after) := StoreV2.Persisted(mode, t, next); r.Ok? && Holds(mode, after, Some(next))
  {
    PersistOutcome(mode, t, before, next);
  }

  lemma ContinuesOn(c: Checkpoint, d: Checkpoint, e: Checkpoint, steps: nat)
    requires Continues(c, d, steps) && Continues(c, e, steps + 1)
    ensures Continues(d, e, 1)
  {
    forall k | 0 <= k < |d.endpoints| ensures e.endpoints[k].identity == d.endpoints[k].identity {
      assert d.endpoints[k].identity == c.endpoints[k].identity;
    }
  }

  /** One link of the chain: both checkpoints are valid, and the second is a successor that keeps everything. */
  lemma ChainLink(c: Checkpoint, i: nat, rs: seq<PortResult>, times: seq<int>)
    requires ValidCheckpoint(c) && i < |c.endpoints| && |times| == |rs| && NotBefore(c.createdAt, times) && rs != []
    requires Appendable(c.endpoints[i], rs)
    ensures var before, next := RecordAll(c, i, rs[..|rs| - 1], times[..|rs| - 1]), RecordAll(c, i, rs, times);
      ValidCheckpoint(before) && ValidCheckpoint(next) && Extends(before, next) && Continues(before, next, 1)
  {
    var n := |rs| - 1;
    AppendableSplit(c.endpoints[i], rs[..n], [rs[n]]);
    assert rs == rs[..n] + [rs[n]];
    PrefixIsValid(c, i, rs[..n], times[..n]);
    PrefixIsValid(c, i, rs, times);
    NextExtends(c, i, rs, times);
    ContinuesOn(c, RecordAll(c, i, rs[..n], times[..n]), RecordAll(c, i, rs, times), n);
  }

  /** Results that are acceptable together are acceptable up to the last one. */
  lemma AppendableFront(p: Progress, rs: seq<PortResult>)
    requires rs != [] && Appendable(p, rs)
    ensures Appendable(p, rs[..|rs| - 1])
  {
    AppendableSplit(p, rs[..|rs| - 1], [rs[|rs| - 1]]);
    assert rs == rs[..|rs| - 1] + [rs[|rs| - 1]];
  }

  /** Over `persist` of the v2 store the loop goes through exactly when the results are acceptable as a batch, and then
      the store loads the last checkpoint of the chain. */
  lemma {:induction false} EachPersists(mode: Mode, t: Tables, c: Checkpoint, i: nat, rs: seq<PortResult>,
                                        times: seq<int>)
    requires Holds(mode, t, Some(c)) && ValidCheckpoint(c)
    requires i < |c.endpoints| && |times| == |rs| && NotBefore(c.createdAt, times)
    ensures PersistEach(mode, t, c, i, rs, times).Ok? <==> Appendable(c.endpoints[i], rs)
    ensures PersistEach(mode, t, c, i, rs, times).Ok? ==>
      Holds(mode, PersistEach(mode, t, c, i, rs, times).value, Some(RecordAll(c, i, rs, times)))
    decreases |rs|
  {
    if rs != [] {
      var n := |rs| - 1;
      EachPersists(mode, t, c, i, rs[..n], times[..n]);
      if Appendable(c.endpoints[i], rs) {
        AppendableFront(c.endpoints[i], rs);
        ChainLink(c, i, rs, times);
        PersistNext(mode, PersistEach(mode, t, c, i, rs[..n], times[..n]).value,
                    RecordAll(c, i, rs[..n], times[..n]), RecordAll(c, i, rs, times));
      }
      if Appendable(c.endpoints[i], rs[..n]) {
        AdmitsExactly(c, i, rs, times);
      }
    }
  }

  // ---------- The v1 store ----------

  /** The v1 store loads this checkpoint, and no later generation has been left behind by an interrupted call. */
  predicate HoldsV1(mode: Mode, disk: V1.Disk, c: Checkpoint) {
    V1.LoadDisk(mode, disk) == Ok(c) && forall name :: name in disk.files ==> name.sequence <= c.sequence
  }

  lemma PersistNextV1(mode: Mode, disk: V1.Disk, before: Checkpoint, next: Checkpoint)
    requires HoldsV1(mode, disk, before) && ValidCheckpoint(next) && Continues(before, next, 1)
    ensures var (r, after) := V1.PersistDisk(mode, disk, next); r.Ok? && HoldsV1(mode, after, next)
  {
    V1.LoadsExactly(mode, disk.files, disk.current.value, before);
    var (r, after) := V1.PersistDisk(mode, disk, next);
    assert V1.GuardFault(mode, disk.current, next) == None;
    assert V1.CheckpointName(next) !in disk.files && V1.ManifestName(next) !in disk.files;
    V1.PublishedPairLoads(mode, after.files, after.files, next);
  }

  lemma HeldIsValid(mode: Mode, disk: V1.Disk, c: Checkpoint)
    requires HoldsV1(mode, disk, c)
    ensures ValidCheckpoint(c)
  {
    V1.LoadsExactly(mode, disk.files, disk.current.value, c);
  }

  /** The same over the v1 store. */
  lemma {:induction false} EachPersistsV1(mode: Mode, disk: V1.Disk, c: Checkpoint, i: nat, rs: seq<PortResult>,
                                          times: seq<int>)
    requires HoldsV1(mode, disk, c) && ValidCheckpoint(c)
    requires i < |c.endpoints| && |times| == |rs| && NotBefore(c.createdAt, times)
    ensures PersistEachV1(mode, disk, c, i, rs, times).Ok? <==> Appendable(c.endpoints[i], rs)
    ensures PersistEachV1(mode, disk, c, i, rs, times).Ok? ==>
      HoldsV1(mode, PersistEachV1(mode, disk, c, i, rs, times).value, RecordAll(c, i, rs, times))
    decreases |rs|
  {
    if rs != [] {
      var n := |rs| - 1;
      EachPersistsV1(mode, disk, c, i, rs[..n], times[..n]);
      if Appendable(c.endpoints[i], rs) {
        AppendableFront(c.endpoints[i], rs);
      }
      if Appendable(c.endpoints[i], rs[..n]) {
        AdmitsExactly(c, i, rs, times);
        if Appendable(c.endpoints[i], rs) {
          ChainLink(c, i, rs, times);
          PersistNextV1(mode, PersistEachV1(mode, disk, c, i, rs[..n], times[..n]).value,
                        RecordAll(c, i, rs[..n], times[..n]), RecordAll(c, i, rs, times));
        }
      }
    }
  }

  // ---------- The refinement ----------

  /** Two checkpoints that differ at most in the time of the last update and in the error of endpoint `i`: the appends
      leave a recorded error alone, the loop clears it. */
  predicate SameWork(a: Checkpoint, b: Checkpoint, i: nat)
    requires i < |a.endpoints|
  {
    && |b.endpoints| == |a.endpoints|
    && b == a.(updatedAt := b.updatedAt,
               endpoints := a.endpoints[i := WithError(a.endpoints[i], b.endpoints[i].error)])
    && (b.endpoints[i].error == a.endpoints[i].error || b.endpoints[i].error == None)
  }

  lemma RecordedInAnyOrder(c: Checkpoint, i: nat, rs: seq<PortResult>, order: seq<PortResult>, now: int,
                           stamps: seq<int>)
    requires i < |c.endpoints| && rs != [] && multiset(order) == multiset(rs) && NoRepeats(Ports(rs))
    requires |stamps| == |order|
    ensures SameWork(RecordedAt(c, i, rs, now, None), RecordAll(c, i, order, stamps), i)
  {
    ByPortIgnoresOrder(rs, order);
    RecordAllAtOnce(c, i, order, stamps);
  }

  /** What the appends come to, for any arrival order and any split. */
  lemma AppendsHold(mode: Mode, limit: int, t: Tables, c: Checkpoint, i: nat, batches: seq<seq<PortResult>>,
                    times: seq<int>)
    requires Holds(mode, t, Some(c)) && i < |c.endpoints| && !Terminal(c.status) && |times| == |batches|
    requires batches != [] && WithinLimit(batches, limit) && Chronological(c.updatedAt, times)
    ensures var result := AppendAll(mode, limit, t, c.endpoints[i].identity, batches, times);
      && (result.Ok? <==> Appendable(c.endpoints[i], Flatten(batches)))
      && (result.Ok? ==>
            Holds(mode, result.value, Some(RecordedAt(c, i, Flatten(batches), times[|times| - 1], None))))
  {
    RowOf(mode, t, c, i);
    AppendAllRecords(mode, limit, t, c.endpoints[i].identity, batches, times);
    assert |Flatten(batches)| >= |batches[|batches| - 1]| > 0;
  }

  /** Refinement.  Take a v2 and a v1 store, and a v2 store written by `persist`, that hold the same running session.
      However the results of a phase arrive and however they are split into batches, the three paths accept them in
      exactly the same cases: canonical results of distinct pending ports.  The stores then load the same completed
      and pending ports, banners and sequence; the one-by-one paths load exactly the last checkpoint of their chain. */
  lemma BatchingDoesNotMatter(mode: Mode, limit: int, t: Tables, simple: Tables, disk: V1.Disk, c: Checkpoint, i: nat,
                              batches: seq<seq<PortResult>>, times: seq<int>,
                              order: seq<PortResult>, stamps: seq<int>)
    requires Holds(mode, t, Some(c)) && Holds(mode, simple, Some(c)) && HoldsV1(mode, disk, c)
    requires i < |c.endpoints| && !Terminal(c.status) && batches != [] && |times| == |batches| && |stamps| == |order|
    requires WithinLimit(batches, limit) && Chronological(c.updatedAt, times) && NotBefore(c.createdAt, stamps)
    requires multiset(order) == multiset(Flatten(batches))
    ensures var appended := AppendAll(mode, limit, t, c.endpoints[i].identity, batches, times);
      var persisted := PersistEach(mode, simple, c, i, order, stamps);
      var published := PersistEachV1(mode, disk, c, i, order, stamps);
      var last := RecordAll(c, i, order, stamps);
      && (appended.Ok? <==> Appendable(c.endpoints[i], order))
      && (persisted.Ok? <==> appended.Ok?) && (published.Ok? <==> appended.Ok?)
      && (appended.Ok? ==>
            && LoadTx(mode, persisted.value) == Ok(last) && V1.LoadDisk(mode, published.value) == Ok(last)
            && LoadTx(mode, appended.value).Ok?
            && |LoadTx(mode, appended.value).value.endpoints| == |c.endpoints|
            && SameWork(LoadTx(mode, appended.value).value, last, i))
  {
    var flat := Flatten(batches);
    AppendsHold(mode, limit, t, c, i, batches, times);
    EachPersists(mode, simple, c, i, order, stamps);
    HeldIsValid(mode, disk, c);
    EachPersistsV1(mode, disk, c, i, order, stamps);
    AppendableInAnyOrder(c.endpoints[i], flat, order);
    var appended := AppendAll(mode, limit, t, c.endpoints[i].identity, batches, times);
    if appended.Ok? {
      assert |flat| >= |batches[|batches| - 1]| > 0;
      RecordedInAnyOrder(c, i, flat, order, times[|times| - 1], stamps);
      HoldsLoads(mode, appended.value, Some(RecordedAt(c, i, flat, times[|times| - 1], None)));
      HoldsLoads(mode, PersistEach(mode, simple, c, i, order, stamps).value, Some(RecordAll(c, i, order, stamps)));
    }
  }
}
