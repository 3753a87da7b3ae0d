/** Any number of v1 writers interleaved at file-operation granularity, with a crash possible anywhere.

    A writer's temporary files are invisible to readers and carry names of their own, so they are not part of the
    state: a step is a probe of a generation name, an exclusive link, or the replacement of CURRENT. */
module StoreV1Writers {
  import opened Common
  import opened Session
  import opened StoreV1

  /** Where a call of `persist` stands. */
  datatype Stage =
    | Idle
    | Guarded(c: Checkpoint)
    | LinkingCheckpoint(c: Checkpoint)
    | CheckpointPublished(c: Checkpoint)
    | LinkingManifest(c: Checkpoint)
    | PairReady(c: Checkpoint)

  datatype World = World(disk: Disk, writers: seq<Stage>)

  datatype Step =
    | Begin(w: nat, c: Checkpoint)
    | ProbeCheckpoint(w: nat)
    | LinkCheckpoint(w: nat)
    | ProbeManifest(w: nat)
    | LinkManifest(w: nat)
    | Replace(w: nat)
    | Crash(w: nat)

  predicate Enabled(mode: Mode, s: World, step: Step) {
    && step.w < |s.writers|
    && var stage := s.writers[step.w];
       match step
       case Begin(_, c) => stage.Idle? && ValidCheckpoint(c) && GuardFault(mode, s.disk.current, c) == None
       case ProbeCheckpoint(_) => stage.Guarded?
       case LinkCheckpoint(_) => stage.LinkingCheckpoint?
       case ProbeManifest(_) => stage.CheckpointPublished?
       case LinkManifest(_) => stage.LinkingManifest?
       case Replace(_) => stage.PairReady?
       case Crash(_) => true
  }

  /** The existence test before writing: absent, already there with the same bytes, or a collision. */
  function AfterProbe(files: map<Name, Document>, name: Name, document: Document, absent: Stage, present: Stage)
    : Stage
  {
    if name !in files then absent else if files[name] == document then present else Idle
  }

  /** The exclusive link: it never overwrites, and compares when another writer came first. */
  function Link(s: World, w: nat, name: Name, document: Document, published: Stage): World
    requires w < |s.writers|
  {
    if name !in s.disk.files then
      World(s.disk.(files := s.disk.files[name := document]), s.writers[w := published])
    else
      s.(writers := s.writers[w := if s.disk.files[name] == document then published else Idle])
  }

  function Apply(mode: Mode, s: World, step: Step): World
    requires Enabled(mode, s, step)
  {
    var w, stage := step.w, s.writers[step.w];
    match step
    case Begin(_, c) => s.(writers := s.writers[w := Guarded(c)])
    case ProbeCheckpoint(_) =>
      s.(writers := s.writers[w :=
        AfterProbe(s.disk.files, CheckpointName(stage.c), CheckpointDocument(stage.c),
                   LinkingCheckpoint(stage.c), CheckpointPublished(stage.c))])
    case LinkCheckpoint(_) =>
      Link(s, w, CheckpointName(stage.c), CheckpointDocument(stage.c), CheckpointPublished(stage.c))
    case ProbeManifest(_) =>
      s.(writers := s.writers[w :=
        AfterProbe(s.disk.files, ManifestName(stage.c), ManifestOf(stage.c),
                   LinkingManifest(stage.c), PairReady(stage.c))])
    case LinkManifest(_) => Link(s, w, ManifestName(stage.c), ManifestOf(stage.c), PairReady(stage.c))
    case Replace(_) => World(s.disk.(current := Some(PointerTo(stage.c))), s.writers[w := Idle])
    case Crash(_) => s.(writers := s.writers[w := Idle])
  }

  predicate Legal(mode: Mode, s: World, steps: seq<Step>)
    decreases |steps|
  {
    steps == [] || (Enabled(mode, s, steps[0]) && Legal(mode, Apply(mode, s, steps[0]), steps[1..]))
  }

  function Execute(mode: Mode, s: World, steps: seq<Step>): World
    requires Legal(mode, s, steps)
    decreases |steps|
  {
    if steps == [] then s else Execute(mode, Apply(mode, s, steps[0]), steps[1..])
  }

  predicate StageSound(mode: Mode, files: map<Name, Document>, stage: Stage) {
    !stage.Idle? ==>
      && ValidCheckpoint(stage.c) && PlanAllowed(mode, stage.c.plan)
      && (stage.CheckpointPublished? || stage.LinkingManifest? ==>
            CheckpointName(stage.c) in files && files[CheckpointName(stage.c)] == CheckpointDocument(stage.c))
      && (stage.PairReady? ==> PairPublished(files, stage.c))
  }

  ghost predicate Inv(mode: Mode, s: World) {
    && CurrentNamesPair(mode, s.disk)
    && forall w :: 0 <= w < |s.writers| ==> StageSound(mode, s.disk.files, s.writers[w])
  }

  lemma StageSoundLater(mode: Mode, before: map<Name, Document>, after: map<Name, Document>, stage: Stage)
    requires StageSound(mode, before, stage) && OnlyAdds(before, after)
    ensures StageSound(mode, after, stage)
  {
  }

  /** Each file operation keeps the invariant, and no operation ever changes a published generation. */
  lemma StepKeepsInv(mode: Mode, s: World, step: Step)
    requires Inv(mode, s) && Enabled(mode, s, step)
    ensures Inv(mode, Apply(mode, s, step))
    ensures OnlyAdds(s.disk.files, Apply(mode, s, step).disk.files)
    ensures |Apply(mode, s, step).writers| == |s.writers|
  {
    var after := Apply(mode, s, step);
    if step.Replace? {
      assert PairPublished(after.disk.files, s.writers[step.w].c);
    } else {
      StillNamesPair(mode, s.disk, after.disk);
    }
    forall w | 0 <= w < |after.writers| ensures StageSound(mode, after.disk.files, after.writers[w]) {
      if w != step.w { StageSoundLater(mode, s.disk.files, after.disk.files, s.writers[w]); }
    }
  }

  lemma {:induction false} RunKeepsInv(mode: Mode, s: World, steps: seq<Step>)
    requires Inv(mode, s) && Legal(mode, s, steps)
    ensures Inv(mode, Execute(mode, s, steps))
    ensures OnlyAdds(s.disk.files, Execute(mode, s, steps).disk.files)
    decreases |steps|
  {
    if steps != [] {
      StepKeepsInv(mode, s, steps[0]);
      RunKeepsInv(mode, Apply(mode, s, steps[0]), steps[1..]);
    }
  }

  function Fresh(n: nat): World { World(Disk(map[], None), seq(n, _ => Idle)) }

  lemma FreshInv(mode: Mode, n: nat)
    ensures Inv(mode, Fresh(n))
  {
  }

  /** Crash safety.  However many writers interleave and wherever they crash, a visible CURRENT always loads to the
      checkpoint it names; and a reader that looked at CURRENT earlier still loads that checkpoint afterwards. */
  lemma VisibleCurrentAlwaysLoads(mode: Mode, n: nat, steps: seq<Step>, more: seq<Step>)
    requires Legal(mode, Fresh(n), steps) && Legal(mode, Execute(mode, Fresh(n), steps), more)
    ensures var seen := Execute(mode, Fresh(n), steps).disk;
      var later := Execute(mode, Execute(mode, Fresh(n), steps), more).disk;
      && OnlyAdds(seen.files, later.files)
      && (seen.current.Some? ==>
            var r := LoadVia(mode, later.files, seen.current.value);
            r.Ok? && PointerTo(r.value) == seen.current.value && LoadDisk(mode, seen) == r)
  {
    FreshInv(mode, n);
    RunKeepsInv(mode, Fresh(n), steps);
    var s := Execute(mode, Fresh(n), steps);
    RunKeepsInv(mode, s, more);
    var later := Execute(mode, s, more).disk;
    if s.disk.current.Some? {
      var c :| ValidCheckpoint(c) && PlanAllowed(mode, c.plan) && PairPublished(s.disk.files, c)
               && s.disk.current.value == PointerTo(c);
      PublishedPairLoads(mode, s.disk.files, s.disk.files, c);
      PublishedPairLoads(mode, s.disk.files, later.files, c);
    }
  }

  // ---------- How many writers ----------

  /** With at most one writer the guard it passed still holds when it replaces CURRENT. */
  predicate GuardStillHolds(mode: Mode, s: World) {
    && |s.writers| <= 1
    && forall w :: 0 <= w < |s.writers| && !s.writers[w].Idle? ==>
         GuardFault(mode, s.disk.current, s.writers[w].c) == None
  }

  predicate NotBack(before: Option<Pointer>, after: Option<Pointer>) {
    before.Some? ==> after.Some? && before.value.sequence <= after.value.sequence
                     && after.value.sessionId == before.value.sessionId
                     && after.value.fingerprint == before.value.fingerprint
  }

  lemma {:induction false} OneWriterNeverGoesBack(mode: Mode, s: World, steps: seq<Step>)
    requires GuardStillHolds(mode, s) && Legal(mode, s, steps)
    ensures NotBack(s.disk.current, Execute(mode, s, steps).disk.current)
    ensures GuardStillHolds(mode, Execute(mode, s, steps))
    decreases |steps|
  {
    if steps != [] {
      OneWriterNeverGoesBack(mode, Apply(mode, s, steps[0]), steps[1..]);
    }
  }

  /** With two writers the sequence can go back: a repeated persist of the first generation that passed its guard
      early replaces CURRENT after the other writer has published the second one. */
  lemma TwoWritersCanGoBack(m: Mode, n: nat, plan: Plan)
    requires n >= 2 && ValidPlan(plan) && PlanAllowed(m, plan)
    ensures exists steps, last ::
      && Legal(m, Fresh(n), steps) && Enabled(m, Execute(m, Fresh(n), steps), last)
      && var s := Execute(m, Fresh(n), steps);
         !NotBack(s.disk.current, Apply(m, s, last).disk.current)
  {
    var c0 := CreatedCheckpoint(0, plan, 0);
    CreatedIsValid(0, plan, 0);
    var c1 := Advance(c0, c0.endpoints, Running, None, 1);
    assert ValidCheckpoint(c1);
    var second := [Begin(1, c1), ProbeCheckpoint(1), LinkCheckpoint(1), ProbeManifest(1), LinkManifest(1), Replace(1)];
    var first := [Begin(1, c0), ProbeCheckpoint(1), LinkCheckpoint(1), ProbeManifest(1), LinkManifest(1), Replace(1)];
    var stale := [Begin(0, c0), ProbeCheckpoint(0), ProbeManifest(0)];
    PersistRuns(m, Fresh(n), 1, c0);
    var s1 := Execute(m, Fresh(n), first);
    StaleRuns(m, s1, 0, c0);
    var s2 := Execute(m, s1, stale);
    PersistRuns(m, s2, 1, c1);
    var s3 := Execute(m, s2, second);
    RunsJoin(m, Fresh(n), first, stale);
    RunsJoin(m, Fresh(n), first + stale, second);
    assert s3 == Execute(m, Fresh(n), first + stale + second);
    assert Enabled(m, s3, Replace(0));
    assert !NotBack(s3.disk.current, Apply(m, s3, Replace(0)).disk.current);
  }

  /** No run of `n` writers, from any point of it on, moves CURRENT back or to another session or plan. */
  ghost predicate NeverBack(mode: Mode, n: nat) {
    forall steps, more ::
      Legal(mode, Fresh(n), steps) && Legal(mode, Execute(mode, Fresh(n), steps), more) ==>
        var seen := Execute(mode, Fresh(n), steps);
        NotBack(seen.disk.current, Execute(mode, seen, more).disk.current)
  }

  const HOST_PLAN := Plan([Identity("example.org", "192.0.2.1", IPv4, None, None)], {80}, 1, 1, false, None, 0)

  /** The sequence of a v1 store is safe exactly with at most one writer. */
  lemma NeverBackExactly(mode: Mode, n: nat)
    ensures NeverBack(mode, n) <==> n <= 1
  {
    if n <= 1 {
      forall steps, more | Legal(mode, Fresh(n), steps) && Legal(mode, Execute(mode, Fresh(n), steps), more)
        ensures var seen := Execute(mode, Fresh(n), steps);
          NotBack(seen.disk.current, Execute(mode, seen, more).disk.current)
      {
        OneWriterNeverGoesBack(mode, Fresh(n), steps);
        OneWriterNeverGoesBack(mode, Execute(mode, Fresh(n), steps), more);
      }
    } else {
      assert 80 in HOST_PLAN.ports;
      TwoWritersCanGoBack(mode, n, HOST_PLAN);
      var steps, last :| Legal(mode, Fresh(n), steps) && Enabled(mode, Execute(mode, Fresh(n), steps), last)
                         && var s := Execute(mode, Fresh(n), steps);
                            !NotBack(s.disk.current, Apply(mode, s, last).disk.current);
      OneStep(mode, Execute(mode, Fresh(n), steps), last);
    }
  }

  lemma OneStep(mode: Mode, s: World, step: Step)
    requires Enabled(mode, s, step)
    ensures Legal(mode, s, [step]) && Execute(mode, s, [step]) == Apply(mode, s, step)
  {
    assert [step][1..] == [];
  }

  lemma {:induction false} RunsJoin(mode: Mode, s: World, a: seq<Step>, b: seq<Step>)
    requires Legal(mode, s, a) && Legal(mode, Execute(mode, s, a), b)
    ensures Legal(mode, s, a + b) && Execute(mode, s, a + b) == Execute(mode, Execute(mode, s, a), b)
    decreases |a|
  {
    if a == [] {
      assert a + b == b;
    } else {
      RunsJoin(mode, Apply(mode, s, a[0]), a[1..], b);
      assert (a + b)[1..] == a[1..] + b;
    }
  }

  /** An undisturbed call of `persist` on free generation names. */
  lemma PersistRuns(mode: Mode, s: World, w: nat, c: Checkpoint)
    requires w < |s.writers| && s.writers[w].Idle? && ValidCheckpoint(c) && GuardFault(mode, s.disk.current, c) == None
    requires CheckpointName(c) !in s.disk.files && ManifestName(c) !in s.disk.files
    ensures var steps :=
        [Begin(w, c), ProbeCheckpoint(w), LinkCheckpoint(w), ProbeManifest(w), LinkManifest(w), Replace(w)];
      && Legal(mode, s, steps)
      && Execute(mode, s, steps) ==
         World(Disk(s.disk.files[CheckpointName(c) := CheckpointDocument(c)][ManifestName(c) := ManifestOf(c)],
                    Some(PointerTo(c))), s.writers)
  {
    var steps := [Begin(w, c), ProbeCheckpoint(w), LinkCheckpoint(w), ProbeManifest(w), LinkManifest(w), Replace(w)];
    var s1 := Apply(mode, s, steps[0]);
    var s2 := Apply(mode, s1, steps[1]);
    var s3 := Apply(mode, s2, steps[2]);
    var s4 := Apply(mode, s3, steps[3]);
    var s5 := Apply(mode, s4, steps[4]);
    var s6 := Apply(mode, s5, steps[5]);
    assert s6.writers == s.writers;
    assert steps[1..][1..] == steps[2..] && steps[2..][1..] == steps[3..] && steps[3..][1..] == steps[4..];
    assert steps[4..][1..] == steps[5..] && steps[5..][1..] == [];
    assert Legal(mode, s5, steps[5..]) && Execute(mode, s5, steps[5..]) == s6;
    assert Legal(mode, s4, steps[4..]) && Execute(mode, s4, steps[4..]) == s6;
    assert Legal(mode, s3, steps[3..]) && Execute(mode, s3, steps[3..]) == s6;
    assert Legal(mode, s2, steps[2..]) && Execute(mode, s2, steps[2..]) == s6;
    assert Legal(mode, s1, steps[1..]) && Execute(mode, s1, steps[1..]) == s6;
  }

  /** A repeated persist of a published pair finds both names taken by its own bytes. */
  lemma StaleRuns(mode: Mode, s: World, w: nat, c: Checkpoint)
    requires w < |s.writers| && s.writers[w].Idle? && ValidCheckpoint(c) && GuardFault(mode, s.disk.current, c) == None
    requires PairPublished(s.disk.files, c)
    ensures var steps := [Begin(w, c), ProbeCheckpoint(w), ProbeManifest(w)];
      Legal(mode, s, steps) && Execute(mode, s, steps) == s.(writers := s.writers[w := PairReady(c)])
  {
    var steps := [Begin(w, c), ProbeCheckpoint(w), ProbeManifest(w)];
    var s1 := Apply(mode, s, steps[0]);
    var s2 := Apply(mode, s1, steps[1]);
    var s3 := Apply(mode, s2, steps[2]);
    assert steps[1..][1..] == steps[2..] && steps[2..][1..] == [];
    assert Legal(mode, s2, steps[2..]) && Execute(mode, s2, steps[2..]) == s3;
    assert Legal(mode, s1, steps[1..]) && Execute(mode, s1, steps[1..]) == s3;
  }

  // ---------- An interrupted write ----------

  /** A writer publishes the checkpoint file of a generation and dies. */
  function Interrupted(w: nat, c: Checkpoint): seq<Step> {
    [Begin(w, c), ProbeCheckpoint(w), LinkCheckpoint(w), Crash(w)]
  }

  predicate SameSession(a: Checkpoint, b: Checkpoint) { a.sessionId == b.sessionId && a.plan == b.plan }

  lemma InterruptedRuns(mode: Mode, s: World, w: nat, c: Checkpoint)
    requires w < |s.writers| && s.writers[w].Idle? && ValidCheckpoint(c) && GuardFault(mode, s.disk.current, c) == None
    requires CheckpointName(c) !in s.disk.files
    ensures Legal(mode, s, Interrupted(w, c))
    ensures Execute(mode, s, Interrupted(w, c)) ==
            s.(disk := s.disk.(files := s.disk.files[CheckpointName(c) := CheckpointDocument(c)]))
  {
    var steps := Interrupted(w, c);
    var s1 := Apply(mode, s, steps[0]);
    var s2 := Apply(mode, s1, steps[1]);
    var s3 := Apply(mode, s2, steps[2]);
    var s4 := Apply(mode, s3, steps[3]);
    assert s4.writers == s.writers;
    assert steps[1..][1..] == steps[2..] && steps[2..][1..] == steps[3..] && steps[3..][1..] == [];
    assert Legal(mode, s3, steps[3..]) && Execute(mode, s3, steps[3..]) == s4;
    assert Legal(mode, s2, steps[2..]) && Execute(mode, s2, steps[2..]) == s4;
    assert Legal(mode, s1, steps[1..]) && Execute(mode, s1, steps[1..]) == s4;
  }

  /** After an interrupted write of the next generation a session goes on only with the very bytes of that generation:
      every other checkpoint of the same sequence collides, and every one of a later sequence leaves a gap. */
  lemma InterruptedWriteBlocks(mode: Mode, s: World, w: nat, c: Checkpoint, other: Checkpoint)
    requires w < |s.writers| && s.writers[w].Idle? && ValidCheckpoint(c) && GuardFault(mode, s.disk.current, c) == None
    requires CheckpointName(c) !in s.disk.files && ManifestName(c) !in s.disk.files
    requires s.disk.current.Some? && c.sequence == s.disk.current.value.sequence + 1
    requires SameSession(c, other) && other.sequence >= c.sequence
    ensures Legal(mode, s, Interrupted(w, c))
    ensures var disk := Execute(mode, s, Interrupted(w, c)).disk;
      && disk.current == s.disk.current
      && (PersistDisk(mode, disk, other).0.Ok? <==> other == c)
      && (other != c && other.sequence == c.sequence ==>
            PersistDisk(mode, disk, other) == (Err(GenerationCollision), disk))
      && (other.sequence > c.sequence ==> PersistDisk(mode, disk, other) == (Err(SequenceGap), disk))
  {
    InterruptedRuns(mode, s, w, c);
  }

  /** A concrete session: its first generation is published, a writer dies over the second one, and the second one at
      another time collides. */
  lemma InterruptedSession(mode: Mode)
    ensures var c0 := CreatedCheckpoint(0, HOST_PLAN, 0);
      var first := [Begin(0, c0), ProbeCheckpoint(0), LinkCheckpoint(0), ProbeManifest(0), LinkManifest(0), Replace(0)];
      var steps := first + Interrupted(0, Advance(c0, c0.endpoints, Running, None, 1));
      && Legal(mode, Fresh(1), steps)
      && var disk := Execute(mode, Fresh(1), steps).disk;
         && ValidCheckpoint(Advance(c0, c0.endpoints, Running, None, 2))
         && PersistDisk(mode, disk, Advance(c0, c0.endpoints, Running, None, 2)) == (Err(GenerationCollision), disk)
  {
    assert 80 in HOST_PLAN.ports;
    var c0 := CreatedCheckpoint(0, HOST_PLAN, 0);
    CreatedIsValid(0, HOST_PLAN, 0);
    var c1, other := Advance(c0, c0.endpoints, Running, None, 1), Advance(c0, c0.endpoints, Running, None, 2);
    assert ValidCheckpoint(c1) && ValidCheckpoint(other);
    var first := [Begin(0, c0), ProbeCheckpoint(0), LinkCheckpoint(0), ProbeManifest(0), LinkManifest(0), Replace(0)];
    PersistRuns(mode, Fresh(1), 0, c0);
    var s := Execute(mode, Fresh(1), first);
    InterruptedWriteBlocks(mode, s, 0, c1, other);
    RunsJoin(mode, Fresh(1), first, Interrupted(0, c1));
  }
}
