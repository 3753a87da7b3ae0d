/** The session contracts: plan, endpoint progress, checkpoint and the manifest derived from a checkpoint.

    The sorted, duplicate-free tuples of the contracts are canonical, so a tuple of ports is a `set<int>`
    here and a tuple of results is a `map<int, PortResult>` keyed by port; `NormalizePorts` is the loop that
    brings a raw list into that form.  A SHA-256 digest is a free constructor applied to the hashed
    document, which makes hashing injective by construction. */
module Session {
  import opened Common

  const MAX_ERROR_LENGTH := 2048
  const MAX_BANNER_LENGTH := 300
  const MAX_SESSION_TARGETS := 4096
  const MAX_THREADS := 500
  const MAX_TARGET_WORKERS := 32

  datatype Family = IPv4 | IPv6

  datatype Identity = Identity(
    requested: string, address: string, family: Family,
    canonicalName: Option<string>, source: Option<string>)

  datatype Key = Key(requested: string, address: string, family: Family)

  function KeyOf(id: Identity): Key {
    Key(id.requested, id.address, id.family)
  }

  datatype Protocol = Tcp | Udp

  datatype PortState = Open | Closed | Filtered | Unfiltered | OpenFiltered | ClosedFiltered

  /** One port result; `rest` stands for the fields no rule of this model looks at. */
  datatype PortResult = PortResult(
    owner: Key, port: int, protocol: Protocol, state: PortState, banner: Option<string>, rest: int)

  datatype Plan = Plan(
    targets: seq<Identity>, ports: set<int>, threads: int, targetWorkers: int,
    bannerGrab: bool, output: Option<string>, rest: int)

  datatype Progress = Progress(
    identity: Identity, completed: map<int, PortResult>, pending: set<int>,
    banners: set<int>, error: Option<string>)

  datatype Status = Created | Running | Cancelled | Failed | Completed

  predicate Terminal(s: Status) { s in {Cancelled, Failed, Completed} }

  datatype Checkpoint = Checkpoint(
    sessionId: int, plan: Plan, status: Status, endpoints: seq<Progress>,
    createdAt: int, updatedAt: int, sequence: int, lastError: Option<string>)

  datatype Manifest = Manifest(
    sessionId: int, fingerprint: Digest, status: Status, startedAt: int, finishedAt: Option<int>,
    targetCount: int, successful: int, failed: int,
    totalPorts: int, completedPorts: int, openPorts: int, sequence: int)

  datatype Digest =
    | PlanDigest(plan: Plan)
    | ResultDigest(result: PortResult)
    | CheckpointDigest(checkpoint: Checkpoint)
    | ManifestDigest(manifest: Manifest)
    | StateDigest(previous: Digest, sessionId: int, sequence: int, status: Status, updatedAt: int,
                  results: seq<Digest>, bannerPort: Option<int>)

  // ---------- Validity, as the constructors check it ----------

  predicate PortInRange(p: int) { 1 <= p <= 65535 }

  predicate ValidText(t: Option<string>) {
    t.Some? ==> 0 < |t.value| <= MAX_ERROR_LENGTH
  }

  predicate Canonical(r: PortResult, id: Identity) {
    && r.owner == KeyOf(id)
    && PortInRange(r.port)
    && r.protocol == Tcp
    && (r.banner.Some? ==> |r.banner.value| <= MAX_BANNER_LENGTH)
  }

  function Keys(ids: seq<Identity>): seq<Key> {
    seq(|ids|, i requires 0 <= i < |ids| => KeyOf(ids[i]))
  }

  function EndpointKeys(es: seq<Progress>): seq<Key> {
    seq(|es|, i requires 0 <= i < |es| => KeyOf(es[i].identity))
  }

  predicate ValidPlan(p: Plan) {
    && 1 <= |p.targets| <= MAX_SESSION_TARGETS
    && NoRepeats(Keys(p.targets))
    && p.ports != {}
    && (forall x :: x in p.ports ==> PortInRange(x))
    && 1 <= p.threads <= MAX_THREADS
    && 1 <= p.targetWorkers <= MAX_TARGET_WORKERS
    && p.targetWorkers <= |p.targets|
    && (p.output.Some? ==> |p.targets| == 1)
  }

  /** The scope a store or runner accepts: exactly one endpoint, or any batch of them. */
  datatype Mode = SingleTarget | MultiTarget

  predicate PlanAllowed(mode: Mode, plan: Plan) {
    match mode
    case SingleTarget => |plan.targets| == 1 && plan.targetWorkers == 1
    case MultiTarget =>
      && |plan.targets| >= 1
      && 1 <= plan.targetWorkers <= |plan.targets|
      && (plan.output.Some? ==> |plan.targets| == 1)
  }

  function OpenPorts(p: Progress): set<int> {
    set x | x in p.completed && p.completed[x].state == Open
  }

  predicate ValidProgress(p: Progress) {
    && (forall x :: x in p.completed ==> p.completed[x].port == x && Canonical(p.completed[x], p.identity))
    && (forall x :: x in p.pending ==> PortInRange(x))
    && p.completed.Keys !! p.pending
    && p.banners <= OpenPorts(p)
    && ValidText(p.error)
  }

  predicate AccountsFor(p: Progress, plan: Plan) {
    && p.completed.Keys + p.pending == plan.ports
    && (!plan.bannerGrab ==> p.banners == {})
  }

  predicate Finished(p: Progress, plan: Plan) {
    && p.pending == {}
    && (plan.bannerGrab ==> p.banners == OpenPorts(p))
    && p.error == None
  }

  predicate MatchesPlan(es: seq<Progress>, plan: Plan) {
    && |es| == |plan.targets|
    && Elems(EndpointKeys(es)) == Elems(Keys(plan.targets))
  }

  predicate StatusAllows(c: Checkpoint) {
    && (c.status == Failed ==> c.lastError.Some?)
    && (c.status in {Created, Completed} ==> c.lastError == None)
    && (c.status == Created ==> forall i :: 0 <= i < |c.endpoints| ==> c.endpoints[i].completed == map[])
    && (c.status == Completed ==> forall i :: 0 <= i < |c.endpoints| ==> Finished(c.endpoints[i], c.plan))
  }

  predicate ValidCheckpoint(c: Checkpoint) {
    && ValidPlan(c.plan)
    && MatchesPlan(c.endpoints, c.plan)
    && (forall i :: 0 <= i < |c.endpoints| ==>
          ValidProgress(c.endpoints[i]) && AccountsFor(c.endpoints[i], c.plan))
    && c.createdAt <= c.updatedAt
    && 0 <= c.sequence
    && ValidText(c.lastError)
    && StatusAllows(c)
  }

  /** The endpoints of a checkpoint have distinct keys, because the plan's targets do. */
  lemma EndpointKeysDistinct(es: seq<Progress>, plan: Plan)
    requires ValidPlan(plan) && MatchesPlan(es, plan)
    ensures NoRepeats(EndpointKeys(es))
  {
    NoRepeatsByCount(Keys(plan.targets));
    NoRepeatsByCount(EndpointKeys(es));
  }

  // ---------- Port lists ----------

  datatype PortListError = OutOfRange | Duplicate | Empty

  predicate StrictlyIncreasing(s: seq<int>) {
    forall i, j :: 0 <= i < j < |s| ==> s[i] < s[j]
  }

  lemma ConsIncreasing(first: int, tail: seq<int>)
    requires StrictlyIncreasing(tail) && forall y :: y in Elems(tail) ==> first < y
    ensures StrictlyIncreasing([first] + tail) && Elems([first] + tail) == {first} + Elems(tail)
  {
    assert forall k :: 0 <= k < |tail| ==> tail[k] in Elems(tail);
  }

  lemma TailGreater(s: seq<int>)
    requires StrictlyIncreasing(s) && s != []
    ensures forall y :: y in Elems(s[1..]) ==> s[0] < y
    ensures Elems(s) == {s[0]} + Elems(s[1..])
  {
    assert s == [s[0]] + s[1..];
  }

  function InsertPort(s: seq<int>, x: int): (r: seq<int>)
    requires StrictlyIncreasing(s) && x !in s
    ensures StrictlyIncreasing(r) && Elems(r) == Elems(s) + {x} && |r| == |s| + 1
  {
    if s == [] then [x]
    else if x < s[0] then
      TailGreater(s);
      ConsIncreasing(x, s);
      [x] + s
    else
      TailGreater(s);
      var tail := InsertPort(s[1..], x);
      ConsIncreasing(s[0], tail);
      [s[0]] + tail
  }

  function SortPorts(s: seq<int>): (r: seq<int>)
    requires NoRepeats(s)
    ensures StrictlyIncreasing(r) && Elems(r) == Elems(s) && |r| == |s|
  {
    if s == [] then []
    else
      var last, front := s[|s| - 1], s[..|s| - 1];
      assert s == front + [last];
      assert last !in Elems(SortPorts(front));
      InsertPort(SortPorts(front), last)
  }

  /** Sorting is canonical: the ascending list of a set of ports is unique. */
  lemma {:induction false} AscendingIsUnique(a: seq<int>, b: seq<int>)
    requires StrictlyIncreasing(a) && StrictlyIncreasing(b) && Elems(a) == Elems(b)
    ensures a == b
  {
    assert b == [] || b[0] in Elems(b);
    if a != [] {
      assert a[0] in Elems(b) && b[0] in Elems(a);
      assert a[0] == b[0];
      assert Elems(a[1..]) == Elems(a) - {a[0]};
      assert Elems(b[1..]) == Elems(b) - {b[0]};
      AscendingIsUnique(a[1..], b[1..]);
      assert a == [a[0]] + a[1..] && b == [b[0]] + b[1..];
    }
  }

  /** The first entry that is out of range or repeats an earlier one decides the error. */
  predicate FaultAt(values: seq<int>, k: int) {
    0 <= k < |values| && (values[k] < 1 || 65535 < values[k] || values[k] in values[..k])
  }

  method NormalizePorts(values: seq<int>, allowEmpty: bool) returns (r: Result<seq<int>, PortListError>)
    ensures r.Ok? <==> (forall k :: !FaultAt(values, k)) && (values != [] || allowEmpty)
    ensures r.Ok? ==> StrictlyIncreasing(r.value) && Elems(r.value) == Elems(values) && |r.value| == |values|
    ensures r == Err(Empty) <==> values == [] && !allowEmpty
    ensures r == Err(OutOfRange) <==>
      exists k :: FaultAt(values, k) && (forall j :: j < k ==> !FaultAt(values, j)) && !(1 <= values[k] <= 65535)
  {
    var normalized: seq<int>, seen: set<int> := [], {};
    for i := 0 to |values|
      invariant normalized == values[..i] && seen == Elems(values[..i])
      invariant NoRepeats(normalized)
      invariant forall k :: k < i ==> !FaultAt(values, k)
    {
      var port := values[i];
      if !PortInRange(port) {
        assert FaultAt(values, i);
        return Err(OutOfRange);
      }
      if port in seen {
        assert FaultAt(values, i);
        return Err(Duplicate);
      }
      assert values[..i + 1] == values[..i] + [port];
      seen := seen + {port};
      normalized := normalized + [port];
    }
    assert values[..|values|] == values;
    if normalized == [] && !allowEmpty {
      return Err(Empty);
    }
    return Ok(SortPorts(normalized));
  }

  // ---------- Progress and checkpoint transitions ----------

  /** The endpoint progress after one result of the scan phase is recorded. */
  function WithResult(p: Progress, r: PortResult): Progress {
    p.(completed := p.completed[r.port := r], pending := p.pending - {r.port}, error := None)
  }

  /** The endpoint progress after the banner of `port` is recorded; an empty banner is stored as none. */
  function WithBanner(p: Progress, port: int, banner: Option<string>): Progress {
    var text := if banner == Some("") then None else banner;
    p.(completed := map x | x in p.completed ::
         if x == port then p.completed[x].(banner := text) else p.completed[x],
       banners := p.banners + {port},
       error := None)
  }

  function WithError(p: Progress, error: Option<string>): Progress {
    p.(error := error)
  }

  /** The successor checkpoint: identity, plan and creation time stay, the sequence advances by one. */
  function Advance(c: Checkpoint, endpoints: seq<Progress>, status: Status, lastError: Option<string>, now: int)
    : Checkpoint
  {
    c.(endpoints := endpoints, status := status, lastError := lastError, updatedAt := now, sequence := c.sequence + 1)
  }

  function CreatedCheckpoint(sessionId: int, plan: Plan, now: int): Checkpoint {
    Checkpoint(sessionId, plan, Created,
               seq(|plan.targets|, i requires 0 <= i < |plan.targets| =>
                 Progress(plan.targets[i], map[], plan.ports, {}, None)),
               now, now, 0, None)
  }

  /** Nothing has been done for this endpoint. */
  predicate Untouched(p: Progress, target: Identity, ports: set<int>) {
    p.identity == target && p.completed == map[] && p.pending == ports && p.banners == {} && p.error == None
  }

  /** A session as it is asked for, with one untouched endpoint for each target, in order. */
  predicate NewSession(c: Checkpoint, sessionId: int, plan: Plan, now: int) {
    && c.sessionId == sessionId && c.plan == plan && c.createdAt == now && c.updatedAt == now
    && c.status == Created && c.sequence == 0 && c.lastError == None
    && |c.endpoints| == |plan.targets|
    && forall i :: 0 <= i < |plan.targets| ==> Untouched(c.endpoints[i], plan.targets[i], plan.ports)
  }

  lemma CreatedIsValid(sessionId: int, plan: Plan, now: int)
    requires ValidPlan(plan)
    ensures ValidCheckpoint(CreatedCheckpoint(sessionId, plan, now))
    ensures NewSession(CreatedCheckpoint(sessionId, plan, now), sessionId, plan, now)
  {
    var c := CreatedCheckpoint(sessionId, plan, now);
    assert EndpointKeys(c.endpoints) == Keys(plan.targets);
  }

  lemma WithBannerIsValid(p: Progress, port: int, banner: Option<string>, plan: Plan)
    requires ValidProgress(p) && AccountsFor(p, plan) && plan.bannerGrab
    requires port in OpenPorts(p) && (banner.Some? ==> |banner.value| <= MAX_BANNER_LENGTH)
    ensures ValidProgress(WithBanner(p, port, banner)) && AccountsFor(WithBanner(p, port, banner), plan)
    ensures OpenPorts(WithBanner(p, port, banner)) == OpenPorts(p)
  {
    var q := WithBanner(p, port, banner);
    assert q.completed.Keys == p.completed.Keys;
  }

  // ---------- Manifest ----------

  function Total(es: seq<Progress>, f: Progress -> int): int {
    if es == [] then 0 else Total(es[..|es| - 1], f) + f(es[|es| - 1])
  }

  function CountCompleted(p: Progress): int { |p.completed| }
  function CountOpen(p: Progress): int { |OpenPorts(p)| }
  function CountSuccessful(p: Progress): int { if p.pending == {} && p.error == None then 1 else 0 }
  function CountFailed(p: Progress): int { if p.error != None then 1 else 0 }

  function FromCheckpoint(c: Checkpoint): Manifest {
    Manifest(c.sessionId, PlanDigest(c.plan), c.status, c.createdAt,
             if Terminal(c.status) then Some(c.updatedAt) else None,
             |c.endpoints|,
             Total(c.endpoints, CountSuccessful), Total(c.endpoints, CountFailed),
             |c.plan.ports| * |c.endpoints|,
             Total(c.endpoints, CountCompleted), Total(c.endpoints, CountOpen),
             c.sequence)
  }

  /** Every check the manifest constructor makes. */
  predicate ManifestChecks(m: Manifest) {
    && (Terminal(m.status) <==> m.finishedAt.Some?)
    && (m.finishedAt.Some? ==> m.startedAt <= m.finishedAt.value)
    && 1 <= m.targetCount && 0 <= m.successful && 0 <= m.failed
    && m.successful + m.failed <= m.targetCount
    && 1 <= m.totalPorts && 0 <= m.openPorts <= m.completedPorts <= m.totalPorts
    && 0 <= m.sequence
    && (m.status == Completed ==>
          m.completedPorts == m.totalPorts && m.successful == m.targetCount && m.failed == 0)
  }

  /** Bounds of the port totals; all ports are completed exactly when no endpoint has a pending one. */
  lemma {:induction false} PortTotals(es: seq<Progress>, plan: Plan)
    requires forall i :: 0 <= i < |es| ==> ValidProgress(es[i]) && AccountsFor(es[i], plan)
    ensures 0 <= Total(es, CountOpen) <= Total(es, CountCompleted) <= |plan.ports| * |es|
    ensures Total(es, CountCompleted) == |plan.ports| * |es| <==>
            forall i :: 0 <= i < |es| ==> es[i].pending == {}
  {
    if es != [] {
      var front, last := es[..|es| - 1], es[|es| - 1];
      PortTotals(front, plan);
      EndpointCounts(last, plan);
      MultiplyNext(|plan.ports|, |front|);
      AllByLast(es, es[..|es| - 1], (p: Progress) => p.pending == {});
    }
  }

  /** Bounds of the target totals, and what it means for them to be extremal. */
  lemma {:induction false} TargetTotals(es: seq<Progress>)
    ensures 0 <= Total(es, CountSuccessful) && 0 <= Total(es, CountFailed)
    ensures Total(es, CountSuccessful) + Total(es, CountFailed) <= |es|
    ensures Total(es, CountFailed) == 0 <==> forall i :: 0 <= i < |es| ==> es[i].error == None
    ensures Total(es, CountSuccessful) == |es| <==>
            forall i :: 0 <= i < |es| ==> es[i].pending == {} && es[i].error == None
  {
    if es != [] {
      TargetTotals(es[..|es| - 1]);
      AllByLast(es, es[..|es| - 1], (p: Progress) => p.error == None);
      AllByLast(es, es[..|es| - 1], (p: Progress) => p.pending == {} && p.error == None);
    }
  }

  lemma AllByLast(es: seq<Progress>, front: seq<Progress>, holds: Progress -> bool)
    requires es != [] && front == es[..|es| - 1]
    ensures (forall i :: 0 <= i < |es| ==> holds(es[i])) <==>
            (forall i :: 0 <= i < |front| ==> holds(front[i])) && holds(es[|es| - 1])
  {
    if (forall i :: 0 <= i < |front| ==> holds(front[i])) && holds(es[|es| - 1]) {
      forall i | 0 <= i < |es| ensures holds(es[i]) {
        if i < |front| { assert front[i] == es[i]; }
      }
    }
  }

  lemma MultiplyNext(m: int, n: int)
    ensures m * (n + 1) == m * n + m
  {
  }

  lemma EndpointCounts(p: Progress, plan: Plan)
    requires ValidProgress(p) && AccountsFor(p, plan)
    ensures |p.completed| + |p.pending| == |plan.ports|
    ensures 0 <= CountOpen(p) <= CountCompleted(p) <= |plan.ports|
    ensures CountCompleted(p) == |plan.ports| <==> p.pending == {}
  {
    assert |p.completed| == |p.completed.Keys|;
    assert OpenPorts(p) <= p.completed.Keys;
    SubsetCount(OpenPorts(p), p.completed.Keys);
    assert |p.completed.Keys + p.pending| == |p.completed.Keys| + |p.pending|;
  }

  lemma ProductPositive(m: int, n: int)
    requires m >= 1 && n >= 1
    ensures m * n >= 1
  {
  }

  /** The counters of a COMPLETED checkpoint are the maximal ones. */
  lemma CompletedTotals(c: Checkpoint)
    requires ValidCheckpoint(c) && c.status == Completed
    ensures Total(c.endpoints, CountCompleted) == |c.plan.ports| * |c.endpoints|
    ensures Total(c.endpoints, CountSuccessful) == |c.endpoints| && Total(c.endpoints, CountFailed) == 0
  {
    PortTotals(c.endpoints, c.plan);
    TargetTotals(c.endpoints);
    assert forall i :: 0 <= i < |c.endpoints| ==> Finished(c.endpoints[i], c.plan);
  }

  /** `from_checkpoint` never raises: the manifest of every valid checkpoint passes every manifest check. */
  lemma ManifestTotality(c: Checkpoint)
    requires ValidCheckpoint(c)
    ensures ManifestChecks(FromCheckpoint(c))
  {
    PortTotals(c.endpoints, c.plan);
    TargetTotals(c.endpoints);
    assert |c.plan.ports| >= 1;
    ProductPositive(|c.plan.ports|, |c.endpoints|);
    if c.status == Completed {
      CompletedTotals(c);
    }
  }

  /** The manifest's counters tell exactly whether work is left and whether an endpoint failed. */
  lemma ManifestTellsProgress(c: Checkpoint)
    requires ValidCheckpoint(c)
    ensures var m := FromCheckpoint(c);
      && (m.completedPorts == m.totalPorts <==> forall i :: 0 <= i < |c.endpoints| ==> c.endpoints[i].pending == {})
      && (m.failed == 0 <==> forall i :: 0 <= i < |c.endpoints| ==> c.endpoints[i].error == None)
      && (m.successful == m.targetCount <==> m.completedPorts == m.totalPorts && m.failed == 0)
  {
    PortTotals(c.endpoints, c.plan);
    TargetTotals(c.endpoints);
  }

  // ---------- What the counters count ----------

  /** The pairs of a position and a port in the set at that position. */
  function Pairs(sets: seq<set<int>>): set<(int, int)> {
    set i, x | 0 <= i < |sets| && x in sets[i] :: (i, x)
  }

  function CompletedPorts(es: seq<Progress>): seq<set<int>> {
    seq(|es|, i requires 0 <= i < |es| => es[i].completed.Keys)
  }

  function OpenPortsOf(es: seq<Progress>): seq<set<int>> {
    seq(|es|, i requires 0 <= i < |es| => set x | x in es[i].completed && es[i].completed[x].state == Open)
  }

  lemma {:induction false} PairsAt(i: int, ports: set<int>)
    ensures |set x | x in ports :: (i, x)| == |ports|
    decreases |ports|
  {
    if exists x :: x in ports {
      var x :| x in ports;
      PairsAt(i, ports - {x});
      assert (set y | y in ports :: (i, y)) == (set y | y in ports - {x} :: (i, y)) + {(i, x)};
    } else {
      assert ports == {} && (set y | y in ports :: (i, y)) == {};
    }
  }

  lemma PairsGrow(sets: seq<set<int>>)
    requires sets != []
    ensures |Pairs(sets)| == |Pairs(sets[..|sets| - 1])| + |sets[|sets| - 1]|
  {
    var n := |sets| - 1;
    var front, last := sets[..n], set x | x in sets[n] :: (n, x);
    assert forall k :: 0 <= k < n ==> front[k] == sets[k];
    assert Pairs(sets) == Pairs(front) + last && Pairs(front) !! last;
    PairsAt(n, sets[n]);
  }

  lemma {:induction false} CompletedCounted(es: seq<Progress>)
    ensures Total(es, CountCompleted) == |Pairs(CompletedPorts(es))|
  {
    if es != [] {
      var n := |es| - 1;
      CompletedCounted(es[..n]);
      assert CompletedPorts(es)[..n] == CompletedPorts(es[..n]);
      PairsGrow(CompletedPorts(es));
      assert |es[n].completed| == |es[n].completed.Keys|;
    } else {
      assert Pairs(CompletedPorts(es)) == {};
    }
  }

  lemma {:induction false} OpenCounted(es: seq<Progress>)
    ensures Total(es, CountOpen) == |Pairs(OpenPortsOf(es))|
  {
    if es != [] {
      var n := |es| - 1;
      OpenCounted(es[..n]);
      assert OpenPortsOf(es)[..n] == OpenPortsOf(es[..n]);
      PairsGrow(OpenPortsOf(es));
      assert OpenPortsOf(es)[n] == OpenPorts(es[n]);
    } else {
      assert Pairs(OpenPortsOf(es)) == {};
    }
  }

  lemma {:induction false} AllPortsCounted(ports: set<int>, n: nat)
    ensures |ports| * n == |Pairs(seq(n, _ => ports))|
  {
    if n > 0 {
      AllPortsCounted(ports, n - 1);
      assert seq(n, _ => ports)[..n - 1] == seq(n - 1, _ => ports);
      PairsGrow(seq(n, _ => ports));
      MultiplyNext(|ports|, n - 1);
    } else {
      assert Pairs(seq(n, _ => ports)) == {};
    }
  }

  /** The endpoints that are done without an error, and those with one. */
  function DoneTargets(es: seq<Progress>): set<int> {
    set i | 0 <= i < |es| && es[i].pending == {} && es[i].error == None
  }

  function FailedTargets(es: seq<Progress>): set<int> { set i | 0 <= i < |es| && es[i].error.Some? }

  lemma {:induction false} DoneCounted(es: seq<Progress>)
    ensures Total(es, CountSuccessful) == |DoneTargets(es)|
  {
    if es != [] {
      var n := |es| - 1;
      DoneCounted(es[..n]);
      assert DoneTargets(es) == DoneTargets(es[..n]) + if es[n].pending == {} && es[n].error == None then {n} else {};
    } else {
      assert DoneTargets(es) == {};
    }
  }

  lemma {:induction false} FailedCounted(es: seq<Progress>)
    ensures Total(es, CountFailed) == |FailedTargets(es)|
  {
    if es != [] {
      var n := |es| - 1;
      FailedCounted(es[..n]);
      assert FailedTargets(es) == FailedTargets(es[..n]) + if es[n].error.Some? then {n} else {};
    } else {
      assert FailedTargets(es) == {};
    }
  }

  /** Every field of the manifest, with its counters as the sizes of what they count. */
  lemma ManifestContents(c: Checkpoint)
    ensures var m, es := FromCheckpoint(c), c.endpoints;
      && m.sessionId == c.sessionId && m.fingerprint == PlanDigest(c.plan) && m.status == c.status
      && m.startedAt == c.createdAt && m.sequence == c.sequence && m.targetCount == |es|
      && m.finishedAt == (if c.status in {Cancelled, Failed, Completed} then Some(c.updatedAt) else None)
      && m.successful == |DoneTargets(es)| && m.failed == |FailedTargets(es)|
      && m.totalPorts == |Pairs(seq(|es|, _ => c.plan.ports))|
      && m.completedPorts == |Pairs(CompletedPorts(es))| && m.openPorts == |Pairs(OpenPortsOf(es))|
  {
    DoneCounted(c.endpoints);
    FailedCounted(c.endpoints);
    AllPortsCounted(c.plan.ports, |c.endpoints|);
    CompletedCounted(c.endpoints);
    OpenCounted(c.endpoints);
  }
}
