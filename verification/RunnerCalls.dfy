/** What a runner's calls come to at the v2 store: accepted, within the caller's duties, and loading as expected. */
module RunnerCalls {
  import opened Common
  import opened Session
  import opened StoreV2Tables
  import opened StoreV2Theorems
  import opened StoreV2Increments
  import opened StoreV2Runs
  import Single = SingleRunner

  /** The tables hold this checkpoint: they are sound and `load` returns it. */
  predicate Holds(mode: Mode, t: Tables, store: Option<Checkpoint>) {
    && Sound(mode, t)
    && match store
       case None => t == EMPTY_TABLES
       case Some(c) => t.state.Some? && Rebuild(t) == c
  }

  lemma HoldsLoads(mode: Mode, t: Tables, store: Option<Checkpoint>)
    requires Holds(mode, t, store)
    ensures LoadTx(mode, t) == if store.Some? then Ok(store.value) else Err(NotFound)
  {
    if store.Some? { LoadSucceedsExactly(mode, t); }
  }

  predicate Succeeds(mode: Mode, limit: int, t: Tables, op: Op, after: Option<Checkpoint>) {
    && RunnerSeesTo(mode, t, op)
    && Attempt(mode, limit, t, op).Ok?
    && Holds(mode, Attempt(mode, limit, t, op).value, after)
  }

  /** The row of an endpoint is found under its key, because the keys of a plan are distinct. */
  lemma RowOf(mode: Mode, t: Tables, c: Checkpoint, i: nat)
    requires Holds(mode, t, Some(c)) && i < |c.endpoints|
    ensures |t.endpoints| == |c.endpoints| && FindRow(t.endpoints, KeyOf(c.endpoints[i].identity)) == i
    ensures RowProgress(t.endpoints[i], c.plan) == c.endpoints[i]
  {
    EndpointKeysDistinct(c.endpoints, c.plan);
    assert RowKeys(t.endpoints) == EndpointKeys(c.endpoints);
    FindRowAt(t.endpoints, i);
  }

  lemma AppendSucceeds(mode: Mode, limit: int, t: Tables, c: Checkpoint, i: nat, batch: seq<PortResult>, now: int)
    requires Holds(mode, t, Some(c)) && i < |c.endpoints| && !Terminal(c.status) && c.updatedAt <= now
    requires 0 < |batch| <= limit && Appendable(c.endpoints[i], batch)
    ensures Succeeds(mode, limit, t, Append(c.endpoints[i].identity, batch, now, Running, None),
                     Some(RecordedAt(c, i, batch, now, None)))
  {
    var id := c.endpoints[i].identity;
    RowOf(mode, t, c, i);
    AppendAcceptsExactly(mode, limit, t, id, batch, now, Running, None);
    AppendRebuilds(mode, limit, t, id, batch, now, Running, None,
                   AppendTx(mode, limit, t, id, batch, now, Running, None).value);
  }

  lemma BannerSucceeds(mode: Mode, limit: int, t: Tables, c: Checkpoint, i: nat, port: int, banner: Option<string>,
                       now: int)
    requires Holds(mode, t, Some(c)) && i < |c.endpoints| && !Terminal(c.status) && c.updatedAt <= now
    requires port in OpenPorts(c.endpoints[i]) - c.endpoints[i].banners && c.plan.bannerGrab
    requires banner.Some? ==> |banner.value| <= MAX_BANNER_LENGTH
    ensures Succeeds(mode, limit, t, CompleteBanner(c.endpoints[i].identity, port, banner, now),
                     Some(BanneredAt(c, i, port, banner, now)))
  {
    var id := c.endpoints[i].identity;
    RowOf(mode, t, c, i);
    BannerAcceptsExactly(mode, t, id, port, banner, now);
    BannerRebuilds(mode, t, id, port, banner, now, BannerTx(mode, t, id, port, banner, now).value);
  }

  /** A successor in the same session is accepted exactly when it extends what is stored, and then loads as itself. */
  lemma PersistOutcome(mode: Mode, t: Tables, before: Checkpoint, c: Checkpoint)
    requires Holds(mode, t, Some(before)) && ValidCheckpoint(c)
    requires c.sessionId == before.sessionId && c.plan == before.plan && c.sequence == before.sequence + 1
    requires c.createdAt == before.createdAt && |c.endpoints| == |before.endpoints|
    requires forall i :: 0 <= i < |c.endpoints| ==> c.endpoints[i].identity == before.endpoints[i].identity
    ensures PlanAllowed(mode, c.plan)
    ensures PersistTx(t, c).Ok? <==> Extends(before, c)
    ensures PersistTx(t, c).Ok? ==>
      Holds(mode, PersistTx(t, c).value, Some(c)) && LoadTx(mode, PersistTx(t, c).value) == Ok(c)
  {
    forall i | 0 <= i < |c.endpoints| ensures t.endpoints[i].identity == c.endpoints[i].identity {
      assert before.endpoints[i].identity == c.endpoints[i].identity;
      assert before.endpoints[i] == RowProgress(t.endpoints[i], before.plan);
    }
    PersistAcceptsExactly(mode, t, c);
    if PersistTx(t, c).Ok? {
      PersistRoundTrip(mode, t, c, PersistTx(t, c).value);
      LoadSucceedsExactly(mode, PersistTx(t, c).value);
    }
  }

  /** A successor checkpoint that keeps everything confirmed is accepted and loads back as itself. */
  lemma PersistSucceeds(mode: Mode, limit: int, t: Tables, before: Option<Checkpoint>, after: Checkpoint)
    requires Holds(mode, t, before) && ValidCheckpoint(after) && PlanAllowed(mode, after.plan)
    requires before.None? || (Single.Keeps(before, Some(after)) && after.sequence == before.value.sequence + 1)
    ensures Succeeds(mode, limit, t, Persist(after), Some(after))
  {
    if before.None? {
      FirstPersistSucceeds(after);
    } else {
      var c := before.value;
      forall i | 0 <= i < |c.endpoints|
        ensures t.endpoints[i].identity == after.endpoints[i].identity
        ensures c.endpoints[i].completed.Keys <= after.endpoints[i].completed.Keys
        ensures c.endpoints[i].banners <= after.endpoints[i].banners
      {
        assert Single.KeepsProgress(c.endpoints[i], after.endpoints[i]);
        assert c.endpoints[i] == RowProgress(t.endpoints[i], c.plan);
      }
      PersistAcceptsExactly(mode, t, after);
    }
    var tables := PersistTx(t, after).value;
    PersistRoundTrip(mode, t, after, tables);
    LoadSucceedsExactly(mode, tables);
  }

  lemma {:induction false} RunFromFirst(mode: Mode, limit: int, t: Tables, op: Op, ops: seq<Op>)
    ensures Run(mode, limit, t, [op] + ops) == Run(mode, limit, Step(mode, limit, t, op), ops)
  {
    if ops == [] {
      assert ([op] + ops)[..0] == [] && Run(mode, limit, t, []) == t;
    } else {
      RunFromFirst(mode, limit, t, op, ops[..|ops| - 1]);
      assert ([op] + ops)[..|ops|] == [op] + ops[..|ops| - 1];
    }
  }
}
