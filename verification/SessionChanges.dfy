/** What a call may change in a session, field by field: every result, banner, error and stamp by itself. */
module SessionChanges {
  import opened Common
  import opened Session
  import opened StoreV2Increments

  /** The same session with this status and error text, `steps` further on, as of `now`. */
  predicate Stamped(c: Checkpoint, d: Checkpoint, status: Status, lastError: Option<string>, steps: nat, now: int) {
    && d.sessionId == c.sessionId && d.plan == c.plan && d.createdAt == c.createdAt
    && d.status == status && d.lastError == lastError && d.updatedAt == now && d.sequence == c.sequence + steps
    && |d.endpoints| == |c.endpoints|
  }

  /** The endpoints other than `i` are as they were. */
  predicate OthersStay(c: Checkpoint, d: Checkpoint, i: nat) {
    && i < |c.endpoints| == |d.endpoints|
    && forall j :: 0 <= j < |c.endpoints| && j != i ==> d.endpoints[j] == c.endpoints[j]
  }

  /** Exactly these results have been confirmed, as they are, and nothing else has changed. */
  predicate ResultsAdded(p: Progress, q: Progress, batch: seq<PortResult>) {
    && q.identity == p.identity && q.banners == p.banners && q.error == p.error
    && (forall k :: 0 <= k < |batch| ==> batch[k].port in q.completed && q.completed[batch[k].port] == batch[k])
    && (forall x :: x in p.completed ==> x in q.completed && q.completed[x] == p.completed[x])
    && q.completed.Keys == p.completed.Keys + Elems(Ports(batch)) && q.pending == p.pending - Elems(Ports(batch))
  }

  /** What is stored for a banner: the text, or nothing for an empty one. */
  predicate Carries(stored: Option<string>, given: Option<string>) {
    if given.Some? && given.value != "" then stored == given else stored == None
  }

  /** The result of this port carries the banner, and nothing else has changed. */
  predicate BannerAdded(p: Progress, q: Progress, port: int, banner: Option<string>) {
    && q.identity == p.identity && q.pending == p.pending && q.error == p.error && q.banners == p.banners + {port}
    && q.completed.Keys == p.completed.Keys && port in p.completed
    && (forall x :: x in p.completed && x != port ==> q.completed[x] == p.completed[x])
    && Carries(q.completed[port].banner, banner)
    && q.completed[port] == p.completed[port].(banner := q.completed[port].banner)
  }

  /** The error is this one, and nothing else has changed. */
  predicate OnlyError(p: Progress, q: Progress, error: Option<string>) {
    && q.identity == p.identity && q.completed == p.completed && q.pending == p.pending && q.banners == p.banners
    && q.error == error
  }

  lemma RecordedContents(p: Progress, batch: seq<PortResult>)
    requires ValidProgress(p) && Appendable(p, batch)
    ensures ResultsAdded(p, Recorded(p, batch), batch)
  {
    ByPortFacts(batch);
    forall k | 0 <= k < |batch|
      ensures batch[k].port in ByPort(batch) && ByPort(batch)[batch[k].port] == batch[k]
      ensures batch[k].port !in p.completed
    {
      FoundByPort(batch, k);
    }
    forall x | x in ByPort(batch) ensures x in p.pending {
      var k :| 0 <= k < |batch| && batch[k] == ByPort(batch)[x];
    }
  }

  lemma BanneredContents(p: Progress, port: int, banner: Option<string>)
    requires port in p.completed
    ensures BannerAdded(p, WithBanner(p, port, banner).(error := p.error), port, banner)
  {
  }

  /** The session with a batch recorded at one endpoint. */
  lemma RecordedAtContents(c: Checkpoint, i: nat, batch: seq<PortResult>, now: int)
    requires i < |c.endpoints| && ValidProgress(c.endpoints[i]) && Appendable(c.endpoints[i], batch)
    ensures var d := RecordedAt(c, i, batch, now, None);
      && Stamped(c, d, Running, None, |batch|, now) && OthersStay(c, d, i)
      && ResultsAdded(c.endpoints[i], d.endpoints[i], batch)
  {
    RecordedContents(c.endpoints[i], batch);
  }

  /** The session with a banner recorded at one endpoint. */
  lemma BanneredAtContents(c: Checkpoint, i: nat, port: int, banner: Option<string>, now: int)
    requires i < |c.endpoints| && port in c.endpoints[i].completed
    ensures var d := BanneredAt(c, i, port, banner, now);
      && Stamped(c, d, Running, None, 1, now) && OthersStay(c, d, i)
      && BannerAdded(c.endpoints[i], d.endpoints[i], port, banner)
  {
    BanneredContents(c.endpoints[i], port, banner);
  }
}
