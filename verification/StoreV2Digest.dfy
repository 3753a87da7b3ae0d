/** The digest chain of the v2 store authenticates its content: two histories of increments from the same tables that
    end at the same sequence with the same state digest have left the same tables. */
module StoreV2Digest {
  import opened Common
  import opened Session
  import opened StoreV2Tables
  import opened StoreV2Increments
  import opened StoreV2Runs

  /** An incremental commit as the runners make it. */
  predicate Increment(op: Op) { op.CompleteBanner? || (op.Append? && op.lastError == None) }

  predicate Accepted(mode: Mode, limit: int, t: Tables, op: Op) { Increment(op) && Attempt(mode, limit, t, op).Ok? }

  /** Every operation is an increment and is accepted where it comes. */
  predicate AllAccepted(mode: Mode, limit: int, t: Tables, ops: seq<Op>) {
    ops == [] || (AllAccepted(mode, limit, t, ops[..|ops| - 1])
                  && Accepted(mode, limit, Run(mode, limit, t, ops[..|ops| - 1]), ops[|ops| - 1]))
  }

  function Target(t: Tables, op: Op): nat
    requires Increment(op)
  {
    FindRow(t.endpoints, KeyOf(op.id))
  }

  /** What an accepted increment puts into the digest: its result documents and, for a banner, its port. */
  function DigestsOf(mode: Mode, limit: int, t: Tables, op: Op): seq<Digest>
    requires Accepted(mode, limit, t, op)
  {
    if op.Append? then Digests(op.batch)
    else [ResultDigest(BannerDocument(t.endpoints[Target(t, op)], op.port, op.banner))]
  }

  function BannerOf(op: Op): Option<int> { if op.CompleteBanner? then Some(op.port) else None }

  function RowAfter(mode: Mode, limit: int, t: Tables, op: Op): EndpointRow
    requires Accepted(mode, limit, t, op)
  {
    var row := t.endpoints[Target(t, op)];
    if op.Append? then row.(results := InsertResults(row.results, op.batch)) else BannerRow(row, op.port, op.banner)
  }

  /** An accepted increment is one commit of the chain. */
  lemma AcceptedCommits(mode: Mode, limit: int, t: Tables, op: Op)
    requires Accepted(mode, limit, t, op)
    ensures t.state.Some? && Target(t, op) < |t.endpoints| && DigestsOf(mode, limit, t, op) != []
    ensures var s := ChainState(t.state.value, |DigestsOf(mode, limit, t, op)|, op.now, None,
                                DigestsOf(mode, limit, t, op), BannerOf(op));
      Attempt(mode, limit, t, op) == CommitChain(t, s, Target(t, op), RowAfter(mode, limit, t, op))
  {
  }

  /** The state after an accepted increment, by what its digest is made of. */
  lemma DigestAfter(mode: Mode, limit: int, t: Tables, op: Op)
    requires Accepted(mode, limit, t, op)
    ensures var after := Step(mode, limit, t, op); var results := DigestsOf(mode, limit, t, op);
      && t.state.Some? && after.state.Some?
      && after.state.value.sequence == t.state.value.sequence + |results|
      && after.state.value.stateDigest ==
         StateDigest(t.state.value.stateDigest, t.state.value.sessionId, after.state.value.sequence, Running, op.now,
                     results, BannerOf(op))
  {
    AcceptedCommits(mode, limit, t, op);
  }

  /** Every result of an accepted batch names the endpoint it is for. */
  lemma OwnersOfBatch(mode: Mode, limit: int, t: Tables, op: Op)
    requires Accepted(mode, limit, t, op) && op.Append?
    ensures op.batch != [] && op.batch[0].owner == KeyOf(op.id)
  {
    var row := t.endpoints[Target(t, op)];
    NoBatchFault(row, t.state.value.plan.ports, op.id, op.batch, |op.batch|);
    assert EntryFault(row, t.state.value.plan.ports, op.id, op.batch, 0) == None;
  }

  lemma {:induction false} DigestsInjective(a: seq<PortResult>, b: seq<PortResult>)
    requires Digests(a) == Digests(b)
    ensures a == b
  {
    assert |a| == |Digests(a)| && |b| == |Digests(b)|;
    forall k | 0 <= k < |a| ensures a[k] == b[k] {
      assert Digests(a)[k] == Digests(b)[k];
    }
  }

  /** From the same tables, the same digest means the same row is written. */
  lemma SameRowWritten(mode: Mode, limit: int, t: Tables, a: Op, b: Op)
    requires Accepted(mode, limit, t, a) && Accepted(mode, limit, t, b)
    requires DigestsOf(mode, limit, t, a) == DigestsOf(mode, limit, t, b) && BannerOf(a) == BannerOf(b)
    ensures Target(t, a) == Target(t, b) && RowAfter(mode, limit, t, a) == RowAfter(mode, limit, t, b)
  {
    AcceptedCommits(mode, limit, t, a);
    AcceptedCommits(mode, limit, t, b);
    if a.Append? {
      DigestsInjective(a.batch, b.batch);
      OwnersOfBatch(mode, limit, t, a);
      OwnersOfBatch(mode, limit, t, b);
    } else {
      var da := BannerDocument(t.endpoints[Target(t, a)], a.port, a.banner);
      var db := BannerDocument(t.endpoints[Target(t, b)], b.port, b.banner);
      assert [ResultDigest(da)][0] == [ResultDigest(db)][0];
      assert Canonical(da, a.id) && Canonical(db, b.id);
    }
  }

  lemma SameStep(mode: Mode, limit: int, t: Tables, a: Op, b: Op)
    requires Accepted(mode, limit, t, a) && Accepted(mode, limit, t, b)
    requires DigestsOf(mode, limit, t, a) == DigestsOf(mode, limit, t, b) && BannerOf(a) == BannerOf(b)
    requires a.now == b.now
    ensures Step(mode, limit, t, a) == Step(mode, limit, t, b)
  {
    AcceptedCommits(mode, limit, t, a);
    AcceptedCommits(mode, limit, t, b);
    SameRowWritten(mode, limit, t, a, b);
  }

  lemma {:induction false} AcceptedAdvance(mode: Mode, limit: int, t: Tables, ops: seq<Op>)
    requires t.state.Some? && AllAccepted(mode, limit, t, ops)
    ensures var after := Run(mode, limit, t, ops);
      after.state.Some? && t.state.value.sequence + |ops| <= after.state.value.sequence
  {
    if ops != [] {
      var before := Run(mode, limit, t, ops[..|ops| - 1]);
      AcceptedAdvance(mode, limit, t, ops[..|ops| - 1]);
      AcceptedCommits(mode, limit, before, ops[|ops| - 1]);
      DigestAfter(mode, limit, before, ops[|ops| - 1]);
    }
  }

  /** The digest determines the state: two runs of increments from the same tables that end at the same sequence with
      the same state digest have committed the same results and banners in the same transactions, and `load` cannot
      tell them apart. */
  lemma {:induction false} DigestDeterminesState(mode: Mode, limit: int, t: Tables, a: seq<Op>, b: seq<Op>)
    requires t.state.Some? && AllAccepted(mode, limit, t, a) && AllAccepted(mode, limit, t, b)
    requires var x, y := Run(mode, limit, t, a), Run(mode, limit, t, b);
      x.state.Some? && y.state.Some? && x.state.value.sequence == y.state.value.sequence
      && x.state.value.stateDigest == y.state.value.stateDigest
    ensures Run(mode, limit, t, a) == Run(mode, limit, t, b) && |a| == |b|
    decreases |a|
  {
    AcceptedAdvance(mode, limit, t, a);
    AcceptedAdvance(mode, limit, t, b);
    if a != [] && b != [] {
      var p, q := a[..|a| - 1], b[..|b| - 1];
      var before, other := Run(mode, limit, t, p), Run(mode, limit, t, q);
      DigestAfter(mode, limit, before, a[|a| - 1]);
      DigestAfter(mode, limit, other, b[|b| - 1]);
      DigestDeterminesState(mode, limit, t, p, q);
      SameStep(mode, limit, before, a[|a| - 1], b[|b| - 1]);
    }
  }
}
