/** Concrete sessions that meet the exact conditions of the v2 store from the wrong side: calls that are accepted and
    leave tables which no longer load, and calls that are refused although nothing is wrong with them. */
module StoreV2Witnesses {
  import opened Common
  import opened Session
  import opened StoreV2Tables
  import opened StoreV2Theorems
  import opened StoreV2Increments
  import opened StoreV2Runs
  import opened StoreV2
  import opened StoreV2Migration
  import opened RunnerCalls
  import V1 = StoreV1

  const HOST := Identity("example.org", "192.0.2.1", IPv4, None, None)
  const OTHER_HOST := Identity("example.net", "192.0.2.2", IPv4, None, None)

  function HostPlan(targets: seq<Identity>, bannerGrab: bool): Plan {
    Plan(targets, {80}, 1, 1, bannerGrab, None, 0)
  }

  function Result80(state: PortState): PortResult { PortResult(KeyOf(HOST), 80, Tcp, state, None, 0) }

  /** A session on port 80 of these targets, just created. */
  function Fresh(targets: seq<Identity>, bannerGrab: bool): Checkpoint {
    CreatedCheckpoint(0, HostPlan(targets, bannerGrab), 0)
  }

  function FreshTables(targets: seq<Identity>, bannerGrab: bool): Tables
    requires ValidPlan(HostPlan(targets, bannerGrab))
  {
    CreatedIsValid(0, HostPlan(targets, bannerGrab), 0);
    FirstPersistSucceeds(Fresh(targets, bannerGrab));
    PersistTx(EMPTY_TABLES, Fresh(targets, bannerGrab)).value
  }

  lemma PlansAreValid(bannerGrab: bool)
    ensures ValidPlan(HostPlan([HOST], bannerGrab)) && PlanAllowed(SingleTarget, HostPlan([HOST], bannerGrab))
    ensures ValidPlan(HostPlan([HOST, OTHER_HOST], bannerGrab))
    ensures PlanAllowed(MultiTarget, HostPlan([HOST, OTHER_HOST], bannerGrab))
  {
    assert 80 in HostPlan([HOST], bannerGrab).ports;
    var keys := Keys([HOST, OTHER_HOST]);
    assert keys[0].requested[8] == 'o' && keys[1].requested[8] == 'n';
  }

  lemma FreshHolds(mode: Mode, targets: seq<Identity>, bannerGrab: bool)
    requires ValidPlan(HostPlan(targets, bannerGrab)) && PlanAllowed(mode, HostPlan(targets, bannerGrab))
    ensures Holds(mode, FreshTables(targets, bannerGrab), Some(Fresh(targets, bannerGrab)))
  {
    CreatedIsValid(0, HostPlan(targets, bannerGrab), 0);
    PersistSucceeds(mode, 1, EMPTY_TABLES, None, Fresh(targets, bannerGrab));
  }

  /** One result recorded. */
  function Scanned(state: PortState, bannerGrab: bool): Checkpoint {
    RecordedAt(Fresh([HOST], bannerGrab), 0, [Result80(state)], 0, None)
  }

  /** One append to the fresh session is accepted and loads. */
  lemma ScannedHolds(state: PortState, bannerGrab: bool)
    ensures ValidPlan(HostPlan([HOST], bannerGrab))
    ensures var attempt := AppendTx(SingleTarget, 1, FreshTables([HOST], bannerGrab), HOST, [Result80(state)], 0,
                                    Running, None);
      attempt.Ok? && Holds(SingleTarget, attempt.value, Some(Scanned(state, bannerGrab)))
  {
    PlansAreValid(bannerGrab);
    FreshHolds(SingleTarget, [HOST], bannerGrab);
    var c := Fresh([HOST], bannerGrab);
    assert Ports([Result80(state)]) == [80] && Appendable(c.endpoints[0], [Result80(state)]);
    AppendSucceeds(SingleTarget, 1, FreshTables([HOST], bannerGrab), c, 0, [Result80(state)], 0);
  }

  function ScannedTables(state: PortState, bannerGrab: bool): Tables {
    ScannedHolds(state, bannerGrab);
    AppendTx(SingleTarget, 1, FreshTables([HOST], bannerGrab), HOST, [Result80(state)], 0, Running, None).value
  }

  // ---------- complete_banner ----------

  lemma BannerIsCommitted(state: PortState, bannerGrab: bool)
    ensures var t := ScannedTables(state, bannerGrab);
      var attempt := BannerTx(SingleTarget, t, HOST, 80, None, 0);
      && LoadTx(SingleTarget, t) == Ok(Scanned(state, bannerGrab)) && attempt.Ok?
      && (LoadTx(SingleTarget, attempt.value).Ok? <==> state == Open && bannerGrab)
  {
    var t, c := ScannedTables(state, bannerGrab), Scanned(state, bannerGrab);
    ScannedHolds(state, bannerGrab);
    HoldsLoads(SingleTarget, t, Some(c));
    RowOf(SingleTarget, t, c, 0);
    assert [Result80(state)][..0] == [] && ByPort([Result80(state)]) == map[80 := Result80(state)];
    assert c.endpoints[0].completed == map[80 := Result80(state)] && c.endpoints[0].banners == {};
    BannerAcceptsExactly(SingleTarget, t, HOST, 80, None, 0);
    BannerRebuilds(SingleTarget, t, HOST, 80, None, 0, BannerTx(SingleTarget, t, HOST, 80, None, 0).value);
  }

  /** `complete_banner` on a closed port is committed, and the session no longer loads. */
  lemma BannerOnClosedPort()
    ensures var t := ScannedTables(Closed, true);
      var attempt := BannerTx(SingleTarget, t, HOST, 80, None, 0);
      && LoadTx(SingleTarget, t) == Ok(Scanned(Closed, true))
      && attempt.Ok? && LoadTx(SingleTarget, attempt.value).Err?
  {
    BannerIsCommitted(Closed, true);
  }

  /** `complete_banner` in a session without banners is committed, and the session no longer loads. */
  lemma BannerNotAskedFor()
    ensures var t := ScannedTables(Open, false);
      var attempt := BannerTx(SingleTarget, t, HOST, 80, None, 0);
      && LoadTx(SingleTarget, t) == Ok(Scanned(Open, false))
      && attempt.Ok? && LoadTx(SingleTarget, attempt.value).Err?
  {
    BannerIsCommitted(Open, false);
  }

  // ---------- persist ----------

  /** A persist that raises, has committed, and leaves tables that do not load. */
  predicate CommittedAndLost(mode: Mode, t: Tables, c: Checkpoint) {
    && ValidCheckpoint(c) && LoadTx(mode, t).Ok?
    && var (receipt, after) := Persisted(mode, t, c);
       receipt.Err? && after != t && LoadTx(mode, after).Err?
  }

  lemma LostExactly(mode: Mode, t: Tables, c: Checkpoint)
    requires Sound(mode, t) && t.state.Some? && ValidCheckpoint(c) && PlanAllowed(mode, c.plan)
    requires PersistTx(t, c).Ok? && c.sequence == t.state.value.sequence + 1
    ensures CommittedAndLost(mode, t, c) <==> !SameColumns(t, c)
  {
    LoadSucceedsExactly(mode, t);
    PersistRoundTrip(mode, t, c, PersistTx(t, c).value);
  }

  /** The successor of the fresh session with another creation time. */
  lemma PersistWithOtherCreation()
    ensures ValidPlan(HostPlan([HOST], true))
    ensures var c := Fresh([HOST], true);
      CommittedAndLost(SingleTarget, FreshTables([HOST], true),
                       Advance(c, c.endpoints, Running, None, 1).(createdAt := 1))
  {
    PlansAreValid(true);
    FreshHolds(SingleTarget, [HOST], true);
    var c := Fresh([HOST], true);
    var next := Advance(c, c.endpoints, Running, None, 1).(createdAt := 1);
    CreatedIsValid(0, c.plan, 0);
    assert ValidCheckpoint(next);
    OneRowAccepted(next);
    LostExactly(SingleTarget, FreshTables([HOST], true), next);
  }

  /** The successor of the fresh session whose endpoint has the same key and another canonical name. */
  lemma PersistWithOtherIdentity()
    ensures ValidPlan(HostPlan([HOST], true))
    ensures var c := Fresh([HOST], true);
      var renamed := c.endpoints[0].(identity := HOST.(canonicalName := Some("alias")));
      CommittedAndLost(SingleTarget, FreshTables([HOST], true), Advance(c, [renamed], Running, None, 0))
  {
    PlansAreValid(true);
    FreshHolds(SingleTarget, [HOST], true);
    var c := Fresh([HOST], true);
    var renamed := c.endpoints[0].(identity := HOST.(canonicalName := Some("alias")));
    var next := Advance(c, [renamed], Running, None, 0);
    CreatedIsValid(0, c.plan, 0);
    assert EndpointKeys(next.endpoints) == Keys([HOST]);
    assert ValidCheckpoint(next);
    OneRowAccepted(next);
    LostExactly(SingleTarget, FreshTables([HOST], true), next);
  }

  lemma OneRowAccepted(next: Checkpoint)
    requires ValidPlan(HostPlan([HOST], true)) && next.plan == HostPlan([HOST], true)
    requires next.sessionId == 0 && next.sequence == 1 && |next.endpoints| == 1
    requires KeyOf(next.endpoints[0].identity) == KeyOf(HOST)
    ensures PersistTx(FreshTables([HOST], true), next).Ok?
  {
    FreshHolds(SingleTarget, [HOST], true);
    var t := FreshTables([HOST], true);
    RowOf(SingleTarget, t, Fresh([HOST], true), 0);
    assert t.endpoints[0].results.Keys == {} && t.endpoints[0].banners == {};
    assert next.endpoints[..0] == [] && MergeAll(t.endpoints, []) == Ok(t.endpoints);
  }

  /** The successor of a fresh session of two targets with its endpoints in the other order. */
  lemma PersistInOtherOrder()
    ensures ValidPlan(HostPlan([HOST, OTHER_HOST], true))
    ensures var c := Fresh([HOST, OTHER_HOST], true);
      CommittedAndLost(MultiTarget, FreshTables([HOST, OTHER_HOST], true),
                       Advance(c, [c.endpoints[1], c.endpoints[0]], Running, None, 0))
  {
    PlansAreValid(true);
    var targets := [HOST, OTHER_HOST];
    FreshHolds(MultiTarget, targets, true);
    var c, t := Fresh(targets, true), FreshTables(targets, true);
    var next := Advance(c, [c.endpoints[1], c.endpoints[0]], Running, None, 0);
    CreatedIsValid(0, c.plan, 0);
    assert EndpointKeys(next.endpoints) == [KeyOf(OTHER_HOST), KeyOf(HOST)];
    assert Keys(targets) == [KeyOf(HOST), KeyOf(OTHER_HOST)];
    assert ValidCheckpoint(next);
    SwappedAccepted(t, c, next);
    LostExactly(MultiTarget, t, next);
    assert HOST != OTHER_HOST by { assert HOST.requested[10] != OTHER_HOST.requested[10]; }
    assert t.endpoints[0].identity == HOST by { RowOf(MultiTarget, t, c, 0); }
  }

  lemma SwappedAccepted(t: Tables, c: Checkpoint, next: Checkpoint)
    requires Holds(MultiTarget, t, Some(c)) && |c.endpoints| == 2
    requires c.endpoints[0].completed == c.endpoints[1].completed == map[]
    requires c.endpoints[0].banners == c.endpoints[1].banners == {}
    requires next == Advance(c, [c.endpoints[1], c.endpoints[0]], Running, None, 0)
    ensures PersistTx(t, next).Ok?
  {
    RowOf(MultiTarget, t, c, 0);
    RowOf(MultiTarget, t, c, 1);
    assert t.endpoints[0].results.Keys == {} && t.endpoints[1].results.Keys == {};
    var one := [c.endpoints[1]];
    assert next.endpoints[..1] == one && one[..0] == [] && MergeAll(t.endpoints, []) == Ok(t.endpoints);
    var first := MergeAll(t.endpoints, one);
    assert first == Ok(t.endpoints[1 := MergeRow(t.endpoints[1], one[0]).value]);
    MergeNeverDrops(t.endpoints, one);
    assert RowKeys(first.value) == RowKeys(t.endpoints) == EndpointKeys(c.endpoints);
    EndpointKeysDistinct(c.endpoints, c.plan);
    FindRowAt(first.value, 0);
  }

  /** After one append, persisting the checkpoint that `load` returns is refused. */
  lemma PersistAfterAppend()
    ensures var t := ScannedTables(Open, true);
      && LoadTx(SingleTarget, t) == Ok(Scanned(Open, true))
      && PersistTx(t, Scanned(Open, true)) == Err(SequenceCollision)
  {
    ScannedHolds(Open, true);
    HoldsLoads(SingleTarget, ScannedTables(Open, true), Some(Scanned(Open, true)));
    PersistAgain(SingleTarget, ScannedTables(Open, true));
  }

  // ---------- Migration ----------

  /** The directory of a v1 store that has persisted the fresh session. */
  function PublishedDisk(): V1.Disk {
    V1.PersistDisk(SingleTarget, V1.Disk(map[], None), Fresh([HOST], true)).1
  }

  lemma PublishedSource()
    ensures SourceCheckpoint(PublishedDisk()) == Ok(Fresh([HOST], true))
  {
    var c, disk := Fresh([HOST], true), PublishedDisk();
    PlansAreValid(true);
    CreatedIsValid(0, c.plan, 0);
    assert V1.PairPublished(disk.files, c) && disk.current == Some(V1.PointerTo(c));
    V1.LoadsExactly(SingleTarget, disk.files, V1.PointerTo(c), c);
  }

  /** A directory with one published session is imported; after one append it cannot be opened again. */
  lemma ReopenAfterAppend()
    ensures var (first, migrated, migrations) := Imported(SingleTarget, EMPTY_TABLES, map[], 0, PublishedDisk());
      var attempt := AppendTx(SingleTarget, 1, migrated, HOST, [Result80(Open)], 0, Running, None);
      && first.Ok? && attempt.Ok?
      && Imported(SingleTarget, attempt.value, migrations, 0, PublishedDisk()).0 == Err(SequenceBack)
  {
    PlansAreValid(true);
    PublishedSource();
    ImportLoadsTheSource(SingleTarget, 0, PublishedDisk());
    var (_, migrated, migrations) := Imported(SingleTarget, EMPTY_TABLES, map[], 0, PublishedDisk());
    assert migrated == FreshTables([HOST], true);
    ScannedHolds(Open, true);
    OneAppend(migrated);
    ReopenExactly(SingleTarget, 1, 0, PublishedDisk(), [Append(HOST, [Result80(Open)], 0, Running, None)]);
  }

  lemma OneAppend(t: Tables)
    requires ValidPlan(HostPlan([HOST], true)) && t == FreshTables([HOST], true)
    ensures var attempt := AppendTx(SingleTarget, 1, t, HOST, [Result80(Open)], 0, Running, None);
      && attempt.Ok? && attempt.value.state.Some? && attempt.value.state.value.sequence == 1
      && Run(SingleTarget, 1, t, [Append(HOST, [Result80(Open)], 0, Running, None)]) == attempt.value
  {
    ScannedHolds(Open, true);
    var op := Append(HOST, [Result80(Open)], 0, Running, None);
    assert [op][..0] == [] && Run(SingleTarget, 1, t, []) == t;
  }
}
