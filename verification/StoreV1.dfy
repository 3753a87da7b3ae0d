/** The generational v1 store: write-once generation files and one atomically replaced CURRENT pointer. */
module StoreV1 {
  import opened Common
  import opened Session

  datatype Kind = CheckpointFile | ManifestFile

  datatype Name = Name(kind: Kind, sequence: int)

  datatype Document = CheckpointDocument(checkpoint: Checkpoint) | ManifestDocument(manifest: Manifest)

  /** CURRENT.json; its two file names are determined by its sequence, as the pointer's constructor enforces. */
  datatype Pointer = Pointer(
    sessionId: int, sequence: int, fingerprint: Digest, checkpointSha: Digest, manifestSha: Digest)

  datatype Disk = Disk(files: map<Name, Document>, current: Option<Pointer>)

  datatype Failure =
    | NoCheckpoint | ScopeRejected | OtherSession | PlanChanged | SequenceBack | SequenceGap | GenerationCollision
    | MissingGeneration | HashMismatch | WrongKind | PointerMismatch | ManifestMismatch | InvalidCheckpoint

  function Sha(d: Document): Digest {
    match d
    case CheckpointDocument(c) => CheckpointDigest(c)
    case ManifestDocument(m) => ManifestDigest(m)
  }

  function CheckpointName(c: Checkpoint): Name { Name(CheckpointFile, c.sequence) }
  function ManifestName(c: Checkpoint): Name { Name(ManifestFile, c.sequence) }
  function ManifestOf(c: Checkpoint): Document { ManifestDocument(FromCheckpoint(c)) }

  function PointerTo(c: Checkpoint): Pointer {
    Pointer(c.sessionId, c.sequence, PlanDigest(c.plan), Sha(CheckpointDocument(c)), Sha(ManifestOf(c)))
  }

  /** Why `persist` refuses a checkpoint before it writes anything. */
  function GuardFault(mode: Mode, current: Option<Pointer>, c: Checkpoint): Option<Failure> {
    if !PlanAllowed(mode, c.plan) then Some(ScopeRejected)
    else if current.None? then None
    else if current.value.sessionId != c.sessionId then Some(OtherSession)
    else if current.value.fingerprint != PlanDigest(c.plan) then Some(PlanChanged)
    else if c.sequence < current.value.sequence then Some(SequenceBack)
    else if c.sequence > current.value.sequence + 1 then Some(SequenceGap)
    else None
  }

  /** Which checkpoints the guard lets through after the generation `b`, and why it refuses the others. */
  lemma GuardExactly(mode: Mode, b: Option<Checkpoint>, c: Checkpoint)
    ensures var fault := GuardFault(mode, if b.Some? then Some(PointerTo(b.value)) else None, c);
      && (fault == None <==>
            && PlanAllowed(mode, c.plan)
            && (b.Some? ==> SameSession(b.value, c) && b.value.sequence <= c.sequence <= b.value.sequence + 1))
      && (fault == Some(ScopeRejected) <==> !PlanAllowed(mode, c.plan))
      && (PlanAllowed(mode, c.plan) && b.Some? ==>
            && (fault == Some(OtherSession) <==> c.sessionId != b.value.sessionId)
            && (fault == Some(PlanChanged) <==> c.sessionId == b.value.sessionId && c.plan != b.value.plan)
            && (fault == Some(SequenceBack) <==> SameSession(b.value, c) && c.sequence < b.value.sequence)
            && (fault == Some(SequenceGap) <==> SameSession(b.value, c) && c.sequence > b.value.sequence + 1))
  {
  }

  predicate SameSession(b: Checkpoint, c: Checkpoint) { c.sessionId == b.sessionId && c.plan == b.plan }

  /** What a reader that has seen this pointer makes of the files. */
  function LoadVia(mode: Mode, files: map<Name, Document>, p: Pointer): Result<Checkpoint, Failure> {
    var cn, mn := Name(CheckpointFile, p.sequence), Name(ManifestFile, p.sequence);
    if cn !in files || mn !in files then Err(MissingGeneration)
    else if Sha(files[cn]) != p.checkpointSha || Sha(files[mn]) != p.manifestSha then Err(HashMismatch)
    else if !files[cn].CheckpointDocument? || !files[mn].ManifestDocument? then Err(WrongKind)
    else
      var c, m := files[cn].checkpoint, files[mn].manifest;
      if !ValidCheckpoint(c) || !ManifestChecks(m) then Err(InvalidCheckpoint)
      else if c.sessionId != p.sessionId || c.sequence != p.sequence || PlanDigest(c.plan) != p.fingerprint
      then Err(PointerMismatch)
      else if m != FromCheckpoint(c) then Err(ManifestMismatch)
      else if !PlanAllowed(mode, c.plan) then Err(ScopeRejected)
      else Ok(c)
  }

  function LoadDisk(mode: Mode, d: Disk): Result<Checkpoint, Failure> {
    if d.current.None? then Err(NoCheckpoint) else LoadVia(mode, d.files, d.current.value)
  }

  /** A generation can be published unless another document already has its name. */
  predicate Publishable(files: map<Name, Document>, name: Name, document: Document) {
    name in files ==> files[name] == document
  }

  predicate PairPublished(files: map<Name, Document>, c: Checkpoint) {
    && CheckpointName(c) in files && files[CheckpointName(c)] == CheckpointDocument(c)
    && ManifestName(c) in files && files[ManifestName(c)] == ManifestOf(c)
  }

  /** One generation after an attempt to publish it: unchanged when it is there already, a collision when other bytes
      have its name. */
  function Publish(files: map<Name, Document>, name: Name, document: Document): Result<map<Name, Document>, Failure> {
    if name !in files then Ok(files[name := document])
    else if files[name] == document then Ok(files)
    else Err(GenerationCollision)
  }

  /** `persist` as a whole: the guard, the two generations, then CURRENT; a refusal may leave a generation behind. */
  function PersistDisk(mode: Mode, d: Disk, c: Checkpoint): (Result<Pointer, Failure>, Disk) {
    if GuardFault(mode, d.current, c).Some? then (Err(GuardFault(mode, d.current, c).value), d)
    else
      match Publish(d.files, CheckpointName(c), CheckpointDocument(c))
      case Err(e) => (Err(e), d)
      case Ok(half) =>
        match Publish(half, ManifestName(c), ManifestOf(c))
        case Err(e) => (Err(e), d.(files := half))
        case Ok(files) => (Ok(PointerTo(c)), Disk(files, Some(PointerTo(c))))
  }

  /** The invariant every file operation keeps: a visible CURRENT names a published pair of generations. */
  ghost predicate CurrentNamesPair(mode: Mode, d: Disk) {
    d.current.Some? ==>
      exists c :: ValidCheckpoint(c) && PlanAllowed(mode, c.plan) && PairPublished(d.files, c)
                  && d.current.value == PointerTo(c)
  }

  predicate OnlyAdds(before: map<Name, Document>, after: map<Name, Document>) {
    forall n :: n in before ==> n in after && after[n] == before[n]
  }

  /** A pointer to a published pair loads exactly its checkpoint, also from any later state of the files. */
  lemma PublishedPairLoads(mode: Mode, files: map<Name, Document>, later: map<Name, Document>, c: Checkpoint)
    requires ValidCheckpoint(c) && PlanAllowed(mode, c.plan) && PairPublished(files, c) && OnlyAdds(files, later)
    ensures LoadVia(mode, later, PointerTo(c)) == Ok(c)
  {
    ManifestTotality(c);
  }

  /** Nothing but a published pair loads: whatever is on disk, a pointer loads a checkpoint exactly when it names it and
      both files hold its own documents. */
  lemma LoadsExactly(mode: Mode, files: map<Name, Document>, p: Pointer, c: Checkpoint)
    ensures LoadVia(mode, files, p) == Ok(c) <==>
            ValidCheckpoint(c) && PlanAllowed(mode, c.plan) && PairPublished(files, c) && p == PointerTo(c)
  {
    if ValidCheckpoint(c) && PlanAllowed(mode, c.plan) && PairPublished(files, c) && p == PointerTo(c) {
      PublishedPairLoads(mode, files, files, c);
    }
  }

  /** A generation that is missing, and one with other bytes than CURRENT records, are told apart. */
  lemma RefusesExactly(mode: Mode, files: map<Name, Document>, p: Pointer)
    ensures var cn, mn := Name(CheckpointFile, p.sequence), Name(ManifestFile, p.sequence);
      && (LoadVia(mode, files, p) == Err(MissingGeneration) <==> cn !in files || mn !in files)
      && (LoadVia(mode, files, p) == Err(HashMismatch) <==>
            && cn in files && mn in files
            && (Sha(files[cn]) != p.checkpointSha || Sha(files[mn]) != p.manifestSha))
  {
  }

  class CheckpointStore {
    const mode: Mode
    var files: map<Name, Document>
    var current: Option<Pointer>

    ghost function Contents(): Disk
      reads this
    {
      Disk(files, current)
    }

    constructor (mode: Mode)
      ensures Contents() == Disk(map[], None) && this.mode == mode
    {
      this.mode := mode;
      files := map[];
      current := None;
    }

    /** Publishes one generation without ever overwriting; a different document of that name is a collision. */
    method WriteGeneration(name: Name, document: Document) returns (collision: bool)
      modifies this`files
      ensures collision <==> !Publishable(old(files), name, document)
      ensures collision ==> files == old(files)
      ensures !collision ==> files == old(files)[name := document] && OnlyAdds(old(files), files)
      ensures Publish(old(files), name, document) == if collision then Err(GenerationCollision) else Ok(files)
    {
      if name in files {
        collision := files[name] != document;
      } else {
        files := files[name := document];
        collision := false;
      }
    }

    /** Persists one generation.  It succeeds exactly when the guard passes and neither generation file is taken by
        a different document, which an interrupted earlier call may have left; CURRENT moves only on success. */
    method Persist(c: Checkpoint) returns (r: Result<Pointer, Failure>)
      requires ValidCheckpoint(c)
      modifies this
      ensures (r, Contents()) == PersistDisk(mode, old(Contents()), c)
      ensures OnlyAdds(old(files), files)
      ensures r.Ok? <==>
        && GuardFault(mode, old(current), c) == None
        && Publishable(old(files), CheckpointName(c), CheckpointDocument(c))
        && Publishable(old(files), ManifestName(c), ManifestOf(c))
      ensures r.Ok? ==> current == Some(PointerTo(c)) && r.value == PointerTo(c) && PairPublished(files, c)
      ensures r.Ok? ==> LoadDisk(mode, Contents()) == Ok(c)
      ensures r.Err? ==> current == old(current)
      ensures r.Err? ==>
        r.error == match GuardFault(mode, old(current), c) case Some(e) => e case None => GenerationCollision
      ensures old(CurrentNamesPair(mode, Contents())) ==> CurrentNamesPair(mode, Contents())
    {
      ghost var before := Contents();
      var fault := GuardFault(mode, current, c);
      if fault.Some? {
        return Err(fault.value);
      }
      var collision := WriteGeneration(CheckpointName(c), CheckpointDocument(c));
      if collision {
        return Err(GenerationCollision);
      }
      collision := WriteGeneration(ManifestName(c), ManifestOf(c));
      if collision {
        StillNamesPair(mode, before, Contents());
        return Err(GenerationCollision);
      }
      current := Some(PointerTo(c));
      PublishedPairLoads(mode, files, files, c);
      return Ok(PointerTo(c));
    }

    method Load() returns (r: Result<Checkpoint, Failure>)
      ensures r == LoadDisk(mode, Contents())
      ensures CurrentNamesPair(mode, Contents()) && current.Some? ==> r.Ok? && PointerTo(r.value) == current.value
    {
      if current.None? {
        return Err(NoCheckpoint);
      }
      r := LoadVia(mode, files, current.value);
      if CurrentNamesPair(mode, Contents()) {
        CurrentLoads(mode, Contents());
      }
    }
  }

  lemma StillNamesPair(mode: Mode, before: Disk, after: Disk)
    requires OnlyAdds(before.files, after.files) && after.current == before.current
    ensures CurrentNamesPair(mode, before) ==> CurrentNamesPair(mode, after)
  {
    if CurrentNamesPair(mode, before) && before.current.Some? {
      var c :| ValidCheckpoint(c) && PlanAllowed(mode, c.plan) && PairPublished(before.files, c)
               && before.current.value == PointerTo(c);
      assert PairPublished(after.files, c);
    }
  }

  lemma CurrentLoads(mode: Mode, d: Disk)
    requires CurrentNamesPair(mode, d) && d.current.Some?
    ensures LoadDisk(mode, d).Ok? && PointerTo(LoadDisk(mode, d).value) == d.current.value
  {
    var c :| ValidCheckpoint(c) && PlanAllowed(mode, c.plan) && PairPublished(d.files, c)
             && d.current.value == PointerTo(c);
    PublishedPairLoads(mode, d.files, d.files, c);
  }
}
