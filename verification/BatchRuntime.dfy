/** The batch runner as the object that changes the store: the load, modify and persist under the state lock, and the
    closing of a resume. */
module BatchRuntime {
  import opened Common
  import opened Session
  import opened StoreV2Tables
  import opened StoreV2Theorems
  import opened StoreV2
  import opened SessionChanges
  import opened RunnerCalls
  import B = BatchRunner
  import S = BatchSafety
  import Contents = BatchContents
  import V1 = StoreV1

  datatype Failure =
    | ScopeRejected | SessionExists | NoSession | PlanMismatch | NotInCheckpoint | InvalidCheckpoint
    | Refused(error: Error)

  function Mutated(c: Checkpoint, i: nat, mutation: Progress -> Progress, now: int): Checkpoint
    requires i < |c.endpoints|
  {
    Advance(c, c.endpoints[i := mutation(c.endpoints[i])], Running, None, now)
  }

  /** One endpoint is the mutation of what it was, and the others are as they were. */
  predicate MutatedOnly(c: Checkpoint, d: Checkpoint, i: nat, mutation: Progress -> Progress, now: int) {
    && Stamped(c, d, Running, None, 1, now) && OthersStay(c, d, i)
    && d.endpoints[i] == mutation(c.endpoints[i])
  }

  class MultiTargetSessionRunner {
    const store: SessionStoreV2
    var current: Option<Checkpoint>

    ghost predicate Valid()
      reads this, store
    {
      store.Valid() && store.mode == MultiTarget && Sound(MultiTarget, store.db)
    }

    /** The checkpoint that the store loads now. */
    ghost predicate Loads(c: Checkpoint)
      reads store
    {
      Holds(MultiTarget, store.db, Some(c))
    }

    constructor (durability: Durability)
      ensures Valid() && fresh(store) && store.db == EMPTY_TABLES && current == None
    {
      store := new SessionStoreV2(MultiTarget, durability);
      current := None;
    }

    /** A new process on an existing database. */
    constructor Open(durability: Durability, tables: Tables, migrations: map<int, V1.Pointer>)
      requires Sound(MultiTarget, tables)
      ensures Valid() && fresh(store) && store.db == tables && current == None
    {
      SoundIsOpenable(MultiTarget, tables);
      store := new SessionStoreV2.Open(MultiTarget, durability, tables, migrations);
      current := None;
    }

    /** Saves a fresh session, with one untouched endpoint for each target; refused outside the batch scope or over an
        existing session. */
    method Create(plan: Plan, sessionId: int, now: int) returns (r: Result<Checkpoint, Failure>)
      requires Valid() && ValidPlan(plan)
      modifies this`current, store
      ensures Valid()
      ensures r.Ok? <==> PlanAllowed(MultiTarget, plan) && old(store.db.state).None?
      ensures r.Err? ==> r.error == if PlanAllowed(MultiTarget, plan) then SessionExists else ScopeRejected
      ensures r.Ok? ==> NewSession(r.value, sessionId, plan, now) && Loads(r.value) && current == Some(r.value)
      ensures r.Err? ==> store.db == old(store.db) && current == old(current)
    {
      if !PlanAllowed(MultiTarget, plan) {
        return Err(ScopeRejected);
      }
      var taken := store.HasCheckpoint();
      if taken {
        return Err(SessionExists);
      }
      var checkpoint := CreatedCheckpoint(sessionId, plan, now);
      CreatedIsValid(sessionId, plan, now);
      PersistSucceeds(MultiTarget, 1, store.db, None, checkpoint);
      var _ := store.Persist(checkpoint);
      current := Some(checkpoint);
      return Ok(checkpoint);
    }

    /** The start of a resume: the stored session, checked against the plan that the caller expects. */
    method LoadSession(expected: Option<Plan>) returns (r: Result<Checkpoint, Failure>)
      requires Valid()
      modifies this`current, store
      ensures Valid() && store.db == old(store.db)
      ensures r == Err(NoSession) <==> store.db.state.None?
      ensures r == Err(PlanMismatch) <==>
        store.db.state.Some? && expected.Some? && expected.value != Rebuild(store.db).plan
      ensures r.Err? ==> r.error in {NoSession, PlanMismatch} && current == old(current)
      ensures r.Ok? ==>
        Loads(r.value) && current == if r.value.status == Completed then Some(r.value) else old(current)
    {
      var loaded := store.Load();
      if loaded.Err? {
        if store.db.state.Some? { LoadsRebuilt(store.db); }
        return Err(NoSession);
      }
      LoadsRebuilt(store.db);
      if expected.Some? && PlanDigest(expected.value) != PlanDigest(loaded.value.plan) {
        return Err(PlanMismatch);
      }
      if loaded.value.status == Completed {
        current := Some(loaded.value);
      }
      return Ok(loaded.value);
    }

    /** `run` up to the point where work begins: the session is created, and the resume that expects the same plan loads
        it. */
    method BeginRun(plan: Plan, sessionId: int, now: int) returns (r: Result<Checkpoint, Failure>)
      requires Valid() && ValidPlan(plan)
      modifies this`current, store
      ensures Valid()
      ensures r.Ok? <==> PlanAllowed(MultiTarget, plan) && old(store.db.state).None?
      ensures r.Err? ==> r.error in {ScopeRejected, SessionExists} && store.db == old(store.db)
      ensures r.Ok? ==> NewSession(r.value, sessionId, plan, now) && Loads(r.value)
    {
      r := Create(plan, sessionId, now);
      if r.Err? {
        return;
      }
      r := LoadSession(Some(plan));
    }

    /** Persists the successor of the loaded checkpoint, and remembers it. */
    method Persist(ghost before: Checkpoint, c: Checkpoint) returns (r: Result<Checkpoint, Failure>)
      requires Valid() && Loads(before) && ValidCheckpoint(c)
      requires c.sessionId == before.sessionId && c.plan == before.plan && c.sequence == before.sequence + 1
      requires c.createdAt == before.createdAt && |c.endpoints| == |before.endpoints|
      requires forall i :: 0 <= i < |c.endpoints| ==> c.endpoints[i].identity == before.endpoints[i].identity
      modifies this`current, store
      ensures Valid()
      ensures r.Ok? <==> Extends(before, c)
      ensures r.Ok? ==> r.value == c && Loads(c) && current == Some(c)
      ensures r.Err? ==> store.db == old(store.db) && current == old(current) && r.error.Refused?
    {
      PersistOutcome(MultiTarget, store.db, before, c);
      var receipt := store.Persist(c);
      if receipt.Err? {
        return Err(Refused(receipt.error));
      }
      current := Some(c);
      return Ok(c);
    }

    /** The endpoints with the mutation applied to the one with this key. */
    method MutateAll(es: seq<Progress>, key: Key, mutation: Progress -> Progress)
      returns (found: bool, updated: seq<Progress>)
      requires NoRepeats(EndpointKeys(es))
      ensures var i := FindProgress(es, key);
        found == (i < |es|) && updated == if found then es[i := mutation(es[i])] else es
    {
      found, updated := false, [];
      for k := 0 to |es|
        invariant found <==> FindProgress(es, key) < k
        invariant updated ==
          if found then es[..k][FindProgress(es, key) := mutation(es[FindProgress(es, key)])] else es[..k]
      {
        FoundOnce(es, key, k);
        assert es[..k + 1] == es[..k] + [es[k]];
        if KeyOf(es[k].identity) == key {
          found := true;
          updated := updated + [mutation(es[k])];
        } else {
          updated := updated + [es[k]];
        }
      }
      assert es[..|es|] == es;
    }

    /** Loads the checkpoint under the state lock, changes one endpoint and persists the whole. */
    method MutateEndpoint(key: Key, mutation: Progress -> Progress, now: int) returns (r: Result<Checkpoint, Failure>)
      requires Valid() && store.db.state.Some?
      requires forall p :: mutation(p).identity == p.identity
      modifies this`current, store
      ensures Valid()
      ensures var c := old(Rebuild(store.db)); var i := FindProgress(c.endpoints, key);
        && (i == |c.endpoints| <==> r == Err(NotInCheckpoint))
        && (i < |c.endpoints| ==>
              var next := Mutated(c, i, mutation, now);
              && (r.Ok? <==> ValidCheckpoint(next) && Extends(c, next))
              && (r.Ok? ==> r.value == next && Loads(next) && current == Some(next))
              && (r.Ok? ==> MutatedOnly(c, r.value, i, mutation, now)))
      ensures r.Err? ==> store.db == old(store.db) && current == old(current)
    {
      LoadsRebuilt(store.db);
      var loaded := store.Load();
      var c := loaded.value;
      EndpointKeysDistinct(c.endpoints, c.plan);
      var found, updated := MutateAll(c.endpoints, key, mutation);
      if !found {
        return Err(NotInCheckpoint);
      }
      var next := Advance(c, updated, Running, None, now);
      if !ValidCheckpoint(next) {
        return Err(InvalidCheckpoint);
      }
      r := Persist(c, next);
    }

    /** Records the error of one endpoint; every other endpoint stays as it is. */
    method MarkEndpointError(id: Identity, text: string, now: int) returns (r: Result<Checkpoint, Failure>)
      requires Valid() && store.db.state.Some?
      modifies this`current, store
      ensures Valid()
      ensures var c := old(Rebuild(store.db)); var i := FindProgress(c.endpoints, KeyOf(id));
        && (r.Ok? <==> i < |c.endpoints| && ValidText(Some(text)) && c.createdAt <= now)
        && (r.Ok? ==> r.value == Mutated(c, i, Marking(text), now) && Loads(r.value) && current == Some(r.value))
        && (r.Ok? ==> && Stamped(c, r.value, Running, None, 1, now) && OthersStay(c, r.value, i)
                      && OnlyError(c.endpoints[i], r.value.endpoints[i], Some(text)))
      ensures r.Err? ==> store.db == old(store.db) && current == old(current)
    {
      MarkedExactly(store.db, FindProgress(Rebuild(store.db).endpoints, KeyOf(id)), text, now);
      r := MutateEndpoint(KeyOf(id), Marking(text), now);
    }

    /** Persists RUNNING with every endpoint's error cleared. */
    method TransitionToRunning(c: Checkpoint, now: int) returns (r: Result<Checkpoint, Failure>)
      requires Valid() && Loads(c) && c.createdAt <= now
      modifies this`current, store
      ensures Valid() && r == Ok(Advance(c, B.Cleared(c.endpoints), Running, None, now))
      ensures Stamped(c, r.value, Running, None, 1, now) && Contents.ErrorsCleared(c, r.value)
      ensures Loads(r.value) && current == Some(r.value)
    {
      var running := Advance(c, B.Cleared(c.endpoints), Running, None, now);
      assert EndpointKeys(running.endpoints) == EndpointKeys(c.endpoints);
      r := Persist(c, running);
    }

    /** Closes a resume: FAILED with the joined errors, or COMPLETED; always with the verdict of the machine. */
    method FinalizeFromCurrent(now: int) returns (r: Result<Checkpoint, Failure>)
      requires Valid() && store.db.state.Some? && Rebuild(store.db).createdAt <= now
      modifies this`current, store
      ensures Valid() && r == Ok(B.Verdict(old(Rebuild(store.db)), now))
      ensures Loads(r.value) && current == Some(r.value)
      ensures var c := old(Rebuild(store.db));
        if B.AnyError(c.endpoints) || NothingNeeded(c) then Contents.Closed(c, r.value, now)
        else ClosedPending(c, r.value, now)
    {
      LoadsRebuilt(store.db);
      var loaded := store.Load();
      var c := loaded.value;
      VerdictOf(c, now);
      if B.AnyError(c.endpoints) {
        TerminalIsValid(c, now);
        r := Persist(c, B.FailedBy(c, now));
        return;
      }
      EndpointKeysDistinct(c.endpoints, c.plan);
      MarkedShape(c, |c.endpoints|, now);
      MarkPendingWork(c, now);
      LoadsRebuilt(store.db);
      loaded := store.Load();
      r := Close(c, loaded.value, now);
    }

    /** Looks at the `k`-th endpoint of `c` and marks it when it still needs work. */
    method MarkIfPending(c: Checkpoint, k: nat, now: int)
      requires Valid() && k < |c.endpoints| && NoRepeats(EndpointKeys(c.endpoints)) && c.createdAt <= now
      requires Loads(B.MarkPending(c, k, now))
      modifies this`current, store
      ensures Valid() && Loads(B.MarkPending(c, k + 1, now))
    {
      var p := c.endpoints[k];
      if B.NeedsWork(p, c.plan) {
        PendingIsFound(c, k, now);
        MarkedShape(c, k, now);
        var _ := MarkEndpointError(p.identity, B.PendingText(p.identity), now);
      }
    }

    /** Marks every endpoint that still needs work, one persisted checkpoint each. */
    method MarkPendingWork(c: Checkpoint, now: int)
      requires Valid() && Loads(c) && NoRepeats(EndpointKeys(c.endpoints)) && c.createdAt <= now
      modifies this`current, store
      ensures Valid() && Loads(B.MarkPending(c, |c.endpoints|, now))
    {
      for k := 0 to |c.endpoints|
        invariant Valid() && Loads(B.MarkPending(c, k, now))
      {
        MarkIfPending(c, k, now);
      }
    }

    /** The last check and the terminal checkpoint; `marked` is `c` with its pending work marked. */
    method Close(ghost c: Checkpoint, marked: Checkpoint, now: int) returns (r: Result<Checkpoint, Failure>)
      requires Valid() && Loads(marked) && marked == B.MarkPending(c, |c.endpoints|, now) && marked.createdAt <= now
      requires !B.AnyError(c.endpoints)
      modifies this`current, store
      ensures Valid() && r == Ok(B.Verdict(c, now)) && Loads(r.value) && current == Some(r.value)
    {
      TerminalIsValid(marked, now);
      if B.AnyError(marked.endpoints) {
        r := Persist(marked, B.FailedBy(marked, now));
      } else {
        NothingLeftUnmarked(c, now);
        r := Persist(marked, CompletedFrom(marked, now));
      }
    }
  }

  function Marking(text: string): Progress -> Progress {
    (p: Progress) => WithError(p, Some(text))
  }

  lemma MarkedExactly(t: Tables, i: nat, text: string, now: int)
    requires Sound(MultiTarget, t) && t.state.Some? && i <= |Rebuild(t).endpoints|
    ensures i == |Rebuild(t).endpoints| || Extends(Rebuild(t), Mutated(Rebuild(t), i, Marking(text), now))
    ensures i == |Rebuild(t).endpoints| ||
            (ValidCheckpoint(Mutated(Rebuild(t), i, Marking(text), now)) <==>
             ValidText(Some(text)) && Rebuild(t).createdAt <= now)
  {
    var c := Rebuild(t);
    if i < |c.endpoints| {
      var next := Mutated(c, i, Marking(text), now);
      assert EndpointKeys(next.endpoints) == EndpointKeys(c.endpoints);
      assert next.endpoints[i] == WithError(c.endpoints[i], Some(text));
      if ValidText(Some(text)) && c.createdAt <= now {
        assert ValidProgress(next.endpoints[i]) && AccountsFor(next.endpoints[i], c.plan);
      }
    }
  }

  function MarkedIfPending(p: Progress, plan: Plan, reached: bool): Progress {
    if reached && B.NeedsWork(p, plan) then WithError(p, Some(B.PendingText(p.identity))) else p
  }

  /** Marking keeps the session and the identities, touches only errors, and leaves one wherever work is pending. */
  lemma {:induction false} MarkedShape(c: Checkpoint, k: nat, now: int)
    requires k <= |c.endpoints|
    ensures var m := B.MarkPending(c, k, now);
      && m.sessionId == c.sessionId && m.plan == c.plan && m.createdAt == c.createdAt
      && forall j :: 0 <= j < |c.endpoints| ==> m.endpoints[j] == MarkedIfPending(c.endpoints[j], c.plan, j < k)
  {
    if k > 0 { MarkedShape(c, k - 1, now); }
  }

  lemma PendingIsFound(c: Checkpoint, k: nat, now: int)
    requires k < |c.endpoints| && NoRepeats(EndpointKeys(c.endpoints))
    ensures FindProgress(B.MarkPending(c, k, now).endpoints, KeyOf(c.endpoints[k].identity)) == k
    ensures ValidText(Some(B.PendingText(c.endpoints[k].identity)))
  {
    var m := B.MarkPending(c, k, now);
    MarkedShape(c, k, now);
    assert EndpointKeys(m.endpoints) == EndpointKeys(c.endpoints);
    FoundOnce(m.endpoints, KeyOf(c.endpoints[k].identity), k);
  }

  predicate NothingNeeded(c: Checkpoint) {
    forall i :: 0 <= i < |c.endpoints| ==> !B.NeedsWork(c.endpoints[i], c.plan)
  }

  function CompletedFrom(c: Checkpoint, now: int): Checkpoint { Advance(c, c.endpoints, Completed, None, now) }

  /** Whatever needs work and is not marked yet gets an error, so a marked checkpoint without errors is finished. */
  lemma NothingLeftUnmarked(c: Checkpoint, now: int)
    requires !B.AnyError(B.MarkPending(c, |c.endpoints|, now).endpoints)
    ensures B.MarkPending(c, |c.endpoints|, now) == c
    ensures NothingNeeded(c)
  {
    MarkedShape(c, |c.endpoints|, now);
    forall i | 0 <= i < |c.endpoints| ensures !B.NeedsWork(c.endpoints[i], c.plan) {
      assert B.MarkPending(c, |c.endpoints|, now).endpoints[i].error.None?;
    }
    S.NothingToMark(c, |c.endpoints|, now);
  }

  /** FAILED because work is still pending: each endpoint that needs work says so, and the others are as they were. */
  predicate ClosedPending(c: Checkpoint, d: Checkpoint, now: int) {
    && d.sessionId == c.sessionId && d.plan == c.plan && d.createdAt == c.createdAt && d.updatedAt == now
    && d.status == Failed && d.lastError.Some?
    && Contents.CutOff(d.lastError.value, Contents.Joined(Contents.Texts(d.endpoints)))
    && |d.endpoints| == |c.endpoints|
    && forall i :: 0 <= i < |c.endpoints| ==>
         if B.NeedsWork(c.endpoints[i], c.plan)
         then OnlyError(c.endpoints[i], d.endpoints[i], Some(B.PendingText(c.endpoints[i].identity)))
         else d.endpoints[i] == c.endpoints[i]
  }

  /** What the verdict is: the errors decide, then the work that is still pending. */
  lemma VerdictOf(c: Checkpoint, now: int)
    requires ValidCheckpoint(c)
    ensures if B.AnyError(c.endpoints) || NothingNeeded(c) then Contents.Closed(c, B.Verdict(c, now), now)
            else ClosedPending(c, B.Verdict(c, now), now)
  {
    if B.AnyError(c.endpoints) || NothingNeeded(c) {
      Contents.ClosedContents(c, now);
    } else {
      var m := B.MarkPending(c, |c.endpoints|, now);
      var i :| 0 <= i < |c.endpoints| && B.NeedsWork(c.endpoints[i], c.plan);
      MarkedTexts(c, m, i, now);
      assert B.Verdict(c, now) == B.FailedBy(m, now);
    }
  }

  lemma MarkedTexts(c: Checkpoint, m: Checkpoint, i: nat, now: int)
    requires ValidCheckpoint(c) && m == B.MarkPending(c, |c.endpoints|, now)
    requires i < |c.endpoints| && B.NeedsWork(c.endpoints[i], c.plan)
    ensures B.AnyError(m.endpoints) && ClosedPending(c, B.FailedBy(m, now), now)
  {
    MarkedShape(c, |c.endpoints|, now);
    assert m.endpoints[i].error.Some?;
    forall j | 0 <= j < |m.endpoints| ensures ValidText(m.endpoints[j].error) {
      assert ValidText(c.endpoints[j].error);
      assert m.endpoints[j] == MarkedIfPending(c.endpoints[j], c.plan, true);
    }
    Contents.ErrorsInOrder(m.endpoints);
  }

  /** The terminal checkpoint of a session is valid: FAILED with errors, COMPLETED without errors and pending work. */
  lemma TerminalIsValid(c: Checkpoint, now: int)
    requires ValidCheckpoint(c) && c.createdAt <= now
    ensures B.AnyError(c.endpoints) ==> ValidCheckpoint(B.FailedBy(c, now)) && Extends(c, B.FailedBy(c, now))
    ensures NothingNeeded(c) ==> ValidCheckpoint(CompletedFrom(c, now)) && Extends(c, CompletedFrom(c, now))
  {
    S.ErrorsJoined(c.endpoints);
  }

  /** The position of the endpoint with this key, or the number of endpoints when there is none. */
  function FindProgress(es: seq<Progress>, key: Key): (i: nat)
    ensures i <= |es| && (i < |es| ==> KeyOf(es[i].identity) == key)
    ensures forall j :: 0 <= j < i ==> KeyOf(es[j].identity) != key
  {
    if es == [] then 0
    else
      var i := FindProgress(es[..|es| - 1], key);
      if i < |es| - 1 then i else if KeyOf(es[|es| - 1].identity) == key then |es| - 1 else |es|
  }

  lemma FoundOnce(es: seq<Progress>, key: Key, k: nat)
    requires k < |es| && NoRepeats(EndpointKeys(es))
    ensures KeyOf(es[k].identity) == key <==> FindProgress(es, key) == k
  {
    var i := FindProgress(es, key);
    if KeyOf(es[k].identity) == key {
      assert i <= k;
      assert EndpointKeys(es)[i] == EndpointKeys(es)[k];
    }
  }

  lemma LoadsRebuilt(t: Tables)
    requires Sound(MultiTarget, t) && t.state.Some?
    ensures LoadTx(MultiTarget, t) == Ok(Rebuild(t)) && Holds(MultiTarget, t, Some(Rebuild(t)))
    ensures ValidCheckpoint(Rebuild(t)) && PlanAllowed(MultiTarget, Rebuild(t).plan)
  {
    LoadSucceedsExactly(MultiTarget, t);
  }
}
