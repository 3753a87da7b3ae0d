/** What the executor does during one resume of the single-target runner, as a script: its reports, its banners and how
    it ends; and what the session holds when all of it has been taken. */
module ExecutorScript {
  import opened Common
  import opened Session
  import opened StoreV2Increments
  import opened ScanPhase
  import opened SessionChanges

  /** The critical sections of a scan in the order they get the callback lock, each with its clock reading.  A report
      also says whether the callback finds the cancel event set. */
  datatype Turn = Reported(result: PortResult, now: int, cancelled: bool) | Ticked(now: int)

  /** How one banner goes: the cancel event is set before it, the executor returns it, or the executor raises. */
  datatype Reply = Interrupted | Grabbed(banner: Option<string>, now: int) | Refused(fault: Fault)

  /** What the executor does during one resume: the turns of the scan and its end, and the banner of each port. */
  datatype Executor = Executor(turns: seq<Turn>, raised: Option<Fault>, lastFlush: int, replies: int -> Reply)

  datatype Clock = Clock(running: int, completed: int, faulted: int)

  const GUARD_TEXT := "El executor devolvio un puerto duplicado o no pendiente."
  const STORE_TEXT := "El almacen v2 rechazo la confirmacion."
  const CANCEL_TEXT := "Sesion monoobjetivo cancelada por el usuario."
  const CLOCK_TEXT := "updated_at no puede ser anterior a created_at."
  const MISSING_TEXT := "El executor finalizo sin completar todos los puertos pendientes."

  /** The executor's errors carry a text that a checkpoint can record. */
  ghost predicate WellFormed(executor: Executor) {
    && (executor.raised.Some? ==> TextOk(executor.raised.value))
    && forall port :: executor.replies(port).Refused? ==> TextOk(executor.replies(port).fault)
  }

  function ReportedPorts(turns: seq<Turn>): set<int> {
    set k | 0 <= k < |turns| && turns[k].Reported? :: turns[k].result.port
  }

  /** Reports of distinct pending ports, all canonical and not cancelled, under a clock that does not go back. */
  predicate Honest(turns: seq<Turn>, id: Identity, pending: set<int>, from: int) {
    && (forall k :: 0 <= k < |turns| ==>
          from <= turns[k].now
          && (turns[k].Reported? ==>
                !turns[k].cancelled && Canonical(turns[k].result, id) && turns[k].result.port in pending))
    && forall j, k :: 0 <= j < k < |turns| ==>
         turns[j].now <= turns[k].now
         && (turns[j].Reported? && turns[k].Reported? ==> turns[j].result.port != turns[k].result.port)
  }

  /** The executor contract however the scan ends: only distinct requested ports are reported. */
  predicate HonestScan(executor: Executor, id: Identity, requested: set<int>, from: int) {
    && Honest(executor.turns, id, requested, from) && from <= executor.lastFlush
    && forall k :: 0 <= k < |executor.turns| ==> executor.turns[k].now <= executor.lastFlush
  }

  /** What an honest scan comes to: the executor's own error, else an error for the ports it left out, else success. */
  function ScanOutcome(executor: Executor, requested: set<int>): Option<Fault> {
    if executor.raised.Some? then executor.raised
    else if requested - ReportedPorts(executor.turns) != {} then Some(ErrorFault(MISSING_TEXT))
    else None
  }

  function AfterTurn(pending: set<int>, turn: Turn): set<int> {
    if turn.Reported? then pending - {turn.result.port} else pending
  }

  lemma HonestTail(turns: seq<Turn>, id: Identity, pending: set<int>, from: int, next: int)
    requires Honest(turns, id, pending, from) && turns != [] && (next == from || next == turns[0].now)
    ensures Honest(turns[1..], id, AfterTurn(pending, turns[0]), next)
    ensures AfterTurn(pending, turns[0]) - ReportedPorts(turns[1..]) == pending - ReportedPorts(turns)
  {
    var rest := turns[1..];
    forall x | x in ReportedPorts(turns) ensures x in ReportedPorts(rest) || x !in AfterTurn(pending, turns[0]) {
      var k :| 0 <= k < |turns| && turns[k].Reported? && turns[k].result.port == x;
      if k > 0 { assert rest[k - 1] == turns[k]; }
    }
    forall x | x in ReportedPorts(rest) ensures x in ReportedPorts(turns) {
      var k :| 0 <= k < |rest| && rest[k].Reported? && rest[k].result.port == x;
      assert turns[k + 1] == rest[k];
    }
    if turns[0].Reported? { assert turns[0].result.port in ReportedPorts(turns); }
  }

  /** Canonical reports of distinct ports that are pending and new, none of them after a cancellation. */
  predicate Clean(turns: seq<Turn>, id: Identity, pending: set<int>, seen: set<int>) {
    && (forall k :: 0 <= k < |turns| ==> Admitted(turns[k], id, pending, seen))
    && forall j, k :: 0 <= j < k < |turns| && turns[j].Reported? && turns[k].Reported? ==>
         turns[j].result.port != turns[k].result.port
  }

  predicate Admitted(turn: Turn, id: Identity, pending: set<int>, seen: set<int>) {
    turn.Reported? ==>
      && !turn.cancelled && Canonical(turn.result, id)
      && turn.result.port in pending && turn.result.port !in seen
  }

  lemma ReportedNext(turns: seq<Turn>, n: nat)
    requires n < |turns|
    ensures ReportedPorts(turns[..n + 1]) == ReportedPorts(turns[..n]) + PortOf(turns[n])
  {
    var front, longer := turns[..n], turns[..n + 1];
    assert forall k :: 0 <= k < n ==> longer[k] == front[k];
    assert longer[n] == turns[n];
  }

  function PortOf(turn: Turn): set<int> { if turn.Reported? then {turn.result.port} else {} }

  lemma CleanNext(turns: seq<Turn>, n: nat, id: Identity, pending: set<int>, seen: set<int>)
    requires n < |turns| && Clean(turns[..n], id, pending, seen)
    requires Admitted(turns[n], id, pending - ReportedPorts(turns[..n]), seen + ReportedPorts(turns[..n]))
    ensures Clean(turns[..n + 1], id, pending, seen)
  {
    var front, longer := turns[..n], turns[..n + 1];
    assert forall k :: 0 <= k < n ==> longer[k] == front[k];
    assert longer[n] == turns[n];
  }

  /** The executor has ended well, after exactly one report for each requested port, and none was refused. */
  predicate Delivered(executor: Executor, id: Identity, requested: set<int>, seen: set<int>) {
    executor.raised.None? && Clean(executor.turns, id, requested, seen) && ReportedPorts(executor.turns) == requested
  }

  lemma CleanWithin(turns: seq<Turn>, id: Identity, pending: set<int>, seen: set<int>)
    requires Clean(turns, id, pending, seen)
    ensures ReportedPorts(turns) <= pending
  {
  }

  /** The result is on its way: buffered, confirmed as it is, or in a batch whose commit failed. */
  predicate Here(r: PortResult, p: Progress, buffered: seq<PortResult>, dropped: set<int>) {
    r in buffered || Stored(r, p) || r.port in dropped
  }

  predicate Stored(r: PortResult, p: Progress) { r.port in p.completed && p.completed[r.port] == r }

  predicate AllHere(turns: seq<Turn>, p: Progress, buffered: seq<PortResult>, dropped: set<int>) {
    forall k :: 0 <= k < |turns| && turns[k].Reported? ==> Here(turns[k].result, p, buffered, dropped)
  }

  predicate AllStored(turns: seq<Turn>, p: Progress) {
    forall k :: 0 <= k < |turns| && turns[k].Reported? ==> Stored(turns[k].result, p)
  }

  /** Whatever was on its way still is, and no banner has been recorded. */
  ghost predicate StillHere(p: Progress, buffered: seq<PortResult>, dropped: set<int>, q: Progress,
                            after: seq<PortResult>, lost: set<int>) {
    && q.banners == p.banners
    && forall r :: Here(r, p, buffered, dropped) ==> Here(r, q, after, lost)
  }

  lemma FlushedStillHere(p: Progress, batch: seq<PortResult>, dropped: set<int>, q: Progress)
    requires ResultsAdded(p, q, batch)
    ensures StillHere(p, batch, dropped, q, [], dropped)
  {
    forall r | r in batch ensures Stored(r, q) {
      var k :| 0 <= k < |batch| && batch[k] == r;
    }
    forall r | Stored(r, p) ensures Stored(r, q) {
    }
  }

  lemma AllArrive(turns: seq<Turn>, p: Progress, buffered: seq<PortResult>, q: Progress)
    requires AllHere(turns, p, buffered, {}) && StillHere(p, buffered, {}, q, [], {})
    ensures AllStored(turns, q)
  {
    forall k | 0 <= k < |turns| && turns[k].Reported? ensures Stored(turns[k].result, q) {
      assert Here(turns[k].result, p, buffered, {});
    }
  }

  lemma DroppedStillHere(p: Progress, batch: seq<PortResult>, dropped: set<int>)
    ensures StillHere(p, batch, dropped, p, [], dropped + Elems(Ports(batch)))
  {
    forall r | r in batch ensures r.port in Elems(Ports(batch)) {
      var k :| 0 <= k < |batch| && batch[k] == r;
      assert Ports(batch)[k] == r.port;
    }
  }

  // ---------- Banners ----------

  predicate Lands(reply: Reply, at: int) {
    reply.Grabbed? && at <= reply.now && (reply.banner.Some? ==> |reply.banner.value| <= MAX_BANNER_LENGTH)
  }

  /** The store takes the banners of all these ports, one after the other in ascending order. */
  ghost predicate Smooth(replies: int -> Reply, ports: set<int>, from: int) {
    && (forall x :: x in ports ==> Lands(replies(x), from))
    && forall x, y :: x in ports && y in ports && x < y ==> replies(x).now <= replies(y).now
  }

  function FaultOf(reply: Reply): Fault {
    match reply
    case Interrupted => CancelFault(CANCEL_TEXT)
    case Refused(fault) => fault
    case Grabbed(_, _) => ErrorFault(STORE_TEXT)
  }

  /** The first port, in ascending order, whose banner is not taken. */
  ghost predicate StopsAt(replies: int -> Reply, ports: set<int>, from: int, port: int) {
    var before := set x | x in ports && x < port;
    port in ports && Smooth(replies, before, from) && !Smooth(replies, before + {port}, from)
  }

  /** The banners of the ports in `done`, and of no others, have been added. */
  ghost predicate BannersAdded(p: Progress, q: Progress, replies: int -> Reply, done: set<int>) {
    && q.identity == p.identity && q.pending == p.pending && q.error == p.error && q.banners == p.banners + done
    && q.completed.Keys == p.completed.Keys
    && (forall x :: x in p.completed ==> q.completed[x] == p.completed[x].(banner := q.completed[x].banner))
    && (forall x :: x in p.completed && x !in done ==> q.completed[x] == p.completed[x])
    && forall x :: x in done ==>
         replies(x).Grabbed? && x in q.completed && Carries(q.completed[x].banner, replies(x).banner)
  }

  lemma BannersNext(p: Progress, q: Progress, next: Progress, replies: int -> Reply, done: set<int>, port: int)
    requires BannersAdded(p, q, replies, done) && port !in done && replies(port).Grabbed?
    requires BannerAdded(q, next, port, replies(port).banner)
    ensures BannersAdded(p, next, replies, done + {port})
  {
  }

  /** The ports in `done` have gone through, the last of them at `at`. */
  ghost predicate ThroughAt(replies: int -> Reply, done: set<int>, from: int, at: int) {
    && Smooth(replies, done, from) && from <= at && (forall x :: x in done ==> replies(x).now <= at)
    && (at == from || exists x :: x in done && replies(x).now == at)
  }

  lemma SmoothNext(replies: int -> Reply, done: set<int>, from: int, at: int, port: int)
    requires ThroughAt(replies, done, from, at) && forall x :: x in done ==> x < port
    ensures Smooth(replies, done + {port}, from) <==> Lands(replies(port), at)
    ensures Lands(replies(port), at) ==> ThroughAt(replies, done + {port}, from, replies(port).now)
  {
    if Smooth(replies, done + {port}, from) {
      assert Lands(replies(port), from);
      if at != from {
        var x :| x in done && replies(x).now == at;
        assert x < port;
      }
    }
  }

  lemma FirstToStop(replies: int -> Reply, ports: set<int>, done: set<int>, from: int, port: int)
    requires Smooth(replies, done, from) && !Smooth(replies, done + {port}, from) && port in ports
    requires done == set x | x in ports && x < port
    ensures StopsAt(replies, ports, from, port) && !Smooth(replies, ports, from)
  {
    assert done + {port} <= ports;
  }

  predicate IsLeast(ports: set<int>, x: int) { x in ports && forall y :: y in ports ==> x <= y }

  lemma {:induction false} Least(ports: set<int>, x: int)
    requires x in ports
    ensures exists y :: IsLeast(ports, y)
    decreases ports
  {
    if exists y :: y in ports && y < x {
      var y :| y in ports && y < x;
      Least(ports - {x}, y);
      var least :| IsLeast(ports - {x}, least);
      forall z | z in ports ensures least <= z {
        assert z == x || z in ports - {x};
      }
      assert IsLeast(ports, least);
    } else {
      assert IsLeast(ports, x);
    }
  }

  method Lowest(ports: set<int>) returns (port: int)
    requires exists x :: x in ports
    ensures IsLeast(ports, port)
  {
    ghost var x :| x in ports;
    Least(ports, x);
    port :| port in ports && IsLeast(ports, port);
  }

  /** The banners of `done` are in the store, the last at `at`, and those of `todo`, all with higher ports, are not. */
  ghost predicate Landed(p: Progress, q: Progress, replies: int -> Reply, from: int, at: int, done: set<int>,
                         todo: set<int>) {
    && (forall x, y :: x in done && y in todo ==> x < y)
    && ThroughAt(replies, done, from, at) && BannersAdded(p, q, replies, done)
  }

  lemma NoneLanded(p: Progress, replies: int -> Reply, from: int, todo: set<int>)
    ensures Landed(p, p, replies, from, from, {}, todo)
  {
  }

  lemma SmoothWithin(replies: int -> Reply, ports: set<int>, from: int, fewer: set<int>, earlier: int)
    requires Smooth(replies, ports, from) && fewer <= ports && earlier <= from
    ensures Smooth(replies, fewer, earlier)
  {
  }

  // ---------- A whole run ----------

  /** Everything an endpoint still needs, delivered in time. */
  ghost predicate Serves(executor: Executor, p: Progress, plan: Plan, from: int) {
    && (p.pending != {} ==>
          && HonestScan(executor, p.identity, p.pending, from) && executor.raised.None?
          && p.pending <= ReportedPorts(executor.turns))
    && (plan.bannerGrab ==>
          Smooth(executor.replies, plan.ports, LastTime(executor, p, from)))
  }

  /** The clock reading by which the scan phase is over. */
  function LastTime(executor: Executor, p: Progress, from: int): int {
    if p.pending == {} then from else executor.lastFlush
  }

  lemma WillLand(executor: Executor, p: Progress, plan: Plan, from: int, m: Progress, at: int)
    requires AccountsFor(m, plan) && (Serves(executor, p, plan, from) ==> at <= LastTime(executor, p, from))
    ensures Serves(executor, p, plan, from) && plan.bannerGrab ==>
      Smooth(executor.replies, OpenPorts(m) - m.banners, at)
  {
    if Serves(executor, p, plan, from) && plan.bannerGrab {
      SmoothWithin(executor.replies, plan.ports, LastTime(executor, p, from), OpenPorts(m) - m.banners, at);
    }
  }

  /** The result is in the session as it was reported, but for the banner of an open port when banners are grabbed. */
  predicate StoredBut(r: PortResult, q: Progress, bannerGrab: bool) {
    && r.port in q.completed && q.completed[r.port] == r.(banner := q.completed[r.port].banner)
    && (!bannerGrab || r.state != Open ==> q.completed[r.port] == r)
  }

  /** The endpoint holds what the executor has delivered: each requested port was reported once and is as it was
      reported, and each open port without a banner before has the one that was returned for it. */
  ghost predicate Served(executor: Executor, p: Progress, q: Progress, plan: Plan) {
    && (p.pending != {} ==>
          && Delivered(executor, p.identity, p.pending, p.completed.Keys)
          && forall k :: 0 <= k < |executor.turns| && executor.turns[k].Reported? ==>
               StoredBut(executor.turns[k].result, q, plan.bannerGrab))
    && (plan.bannerGrab ==>
          forall x :: x in OpenPorts(q) - p.banners ==>
            executor.replies(x).Grabbed? && Carries(q.completed[x].banner, executor.replies(x).banner))
  }

  ghost predicate ServesSession(executor: Executor, c: Checkpoint, clock: Clock)
    requires |c.endpoints| == 1
  {
    Serves(executor, c.endpoints[0], c.plan, clock.running) && c.createdAt <= clock.completed
  }

  ghost predicate ServedBy(executor: Executor, c: Checkpoint, d: Checkpoint)
    requires |c.endpoints| == 1
  {
    |d.endpoints| == 1 && Served(executor, c.endpoints[0], d.endpoints[0], c.plan)
  }

  /** What a scan phase without a fault leaves. */
  predicate Scanned(executor: Executor, p: Progress, m: Progress) {
    if p.pending == {} then m == p
    else && Delivered(executor, p.identity, p.pending, p.completed.Keys) && AllStored(executor.turns, m)
         && m.banners == p.banners
  }

  /** What the scan phase leaves, and what the banner phase makes of it. */
  ghost predicate Phases(executor: Executor, p: Progress, m: Progress, q: Progress, plan: Plan) {
    && Scanned(executor, p, m)
    && (if plan.bannerGrab then BannersAdded(m, q, executor.replies, OpenPorts(m) - m.banners) else q == m)
  }

  lemma PhasesServe(executor: Executor, p: Progress, m: Progress, q: Progress, plan: Plan)
    requires ValidProgress(p) && Phases(executor, p, m, q, plan)
    ensures Served(executor, p, q, plan)
  {
    if p.pending != {} {
      forall k | 0 <= k < |executor.turns| && executor.turns[k].Reported?
        ensures StoredBut(executor.turns[k].result, q, plan.bannerGrab)
      {
        assert Stored(executor.turns[k].result, m);
      }
    }
  }

  lemma OneMoved(done: set<int>, todo: set<int>, port: int)
    requires port in todo
    ensures (done + {port}) + (todo - {port}) == done + todo && todo - {port} < todo
  {
  }

  lemma NextStops(p: Progress, q: Progress, replies: int -> Reply, from: int, at: int, done: set<int>, todo: set<int>,
                  port: int)
    requires Landed(p, q, replies, from, at, done, todo) && IsLeast(todo, port) && !Lands(replies(port), at)
    ensures StopsAt(replies, done + todo, from, port) && !Smooth(replies, done + todo, from)
  {
    SmoothNext(replies, done, from, at, port);
    assert done == set x | x in done + todo && x < port;
    FirstToStop(replies, done + todo, done, from, port);
  }

  lemma NextLanded(p: Progress, q: Progress, next: Progress, replies: int -> Reply, from: int, at: int,
                   done: set<int>, todo: set<int>, port: int)
    requires Landed(p, q, replies, from, at, done, todo) && IsLeast(todo, port)
    requires Lands(replies(port), at) && BannerAdded(q, next, port, replies(port).banner)
    ensures Landed(p, next, replies, from, replies(port).now, done + {port}, todo - {port})
  {
    SmoothNext(replies, done, from, at, port);
    BannersNext(p, q, next, replies, done, port);
  }
}
