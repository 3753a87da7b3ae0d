/** The tables of the v2 session store as values, its three transactions and its reader as functions of them.

    Rows of `port_result` and `banner_completion` are grouped under the endpoint row they reference, whose
    position is its ordinal; the primary key of a result row is the port (the protocol is always TCP). */
module StoreV2Tables {
  import opened Common
  import opened Session

  datatype ResultRow = ResultRow(document: PortResult, sha: Digest)

  datatype EndpointRow = EndpointRow(
    identity: Identity, error: Option<string>, results: map<int, ResultRow>, banners: set<int>)

  datatype HistoryRow = HistoryRow(status: Status, stateDigest: Digest)

  datatype StateRow = StateRow(
    sessionId: int, plan: Plan, fingerprint: Digest, status: Status, createdAt: int, updatedAt: int,
    sequence: int, lastError: Option<string>, checkpointSha: Option<Digest>, stateDigest: Digest)

  datatype Tables = Tables(state: Option<StateRow>, endpoints: seq<EndpointRow>, history: map<int, HistoryRow>)

  const EMPTY_TABLES := Tables(None, [], map[])

  datatype Error =
    | NotFound | PlanRejected | PlanChanged | OtherSession
    | SequenceBack | SequenceGap | SequenceCollision
    | EndpointMismatch | DropsResults | DropsBanners
    | EmptyBatch | OversizeBatch | TerminalSession | TimeWentBack | StatusNotRunning | UnknownEndpoint
    | BadResult | DuplicateInBatch | PortOutsidePlan | ResultCollision | AlreadyConfirmed | HistoryCollision
    | NoResultForBanner | BannerAlreadyConfirmed
    | SourceInvalid | SourceChanged
    | Incompatible | BadFingerprint | BadResultDigest | BadHistory | BadCheckpointDigest | ReconstructedDiffers

  function NewRow(r: PortResult): ResultRow { ResultRow(r, ResultDigest(r)) }

  function RowKeys(rows: seq<EndpointRow>): seq<Key> {
    seq(|rows|, i requires 0 <= i < |rows| => KeyOf(rows[i].identity))
  }

  /** The position of the row with this key, or the number of rows when there is none. */
  function FindRow(rows: seq<EndpointRow>, key: Key): (i: nat)
    ensures i <= |rows|
    ensures i < |rows| ==> KeyOf(rows[i].identity) == key
    ensures forall j :: 0 <= j < i ==> KeyOf(rows[j].identity) != key
  {
    if rows == [] then 0
    else if KeyOf(rows[0].identity) == key then 0
    else
      var i := FindRow(rows[1..], key);
      assert forall j :: 0 < j < |rows| ==> rows[j] == rows[1..][j - 1];
      i + 1
  }

  // ---------- persist ----------

  /** Incoming results replace rows of a different digest and leave rows of the same digest alone. */
  function Upsert(rows: map<int, ResultRow>, incoming: map<int, PortResult>): map<int, ResultRow> {
    map x | x in rows.Keys + incoming.Keys ::
      if x in incoming && !(x in rows && rows[x].sha == ResultDigest(incoming[x]))
      then NewRow(incoming[x]) else rows[x]
  }

  function MergeRow(row: EndpointRow, p: Progress): Result<EndpointRow, Error> {
    if !(row.results.Keys <= p.completed.Keys) then Err(DropsResults)
    else if !(row.banners <= p.banners) then Err(DropsBanners)
    else Ok(row.(error := p.error, results := Upsert(row.results, p.completed), banners := p.banners))
  }

  /** Merges the endpoints of a checkpoint in order, each into the row with its key. */
  function MergeAll(rows: seq<EndpointRow>, ps: seq<Progress>): (r: Result<seq<EndpointRow>, Error>)
    ensures r.Ok? ==> |r.value| == |rows|
  {
    if ps == [] then Ok(rows)
    else
      var merged :- MergeAll(rows, ps[..|ps| - 1]);
      var p := ps[|ps| - 1];
      var i := FindRow(merged, KeyOf(p.identity));
      if i == |merged| then Err(EndpointMismatch)
      else
        var row :- MergeRow(merged[i], p);
        Ok(merged[i := row])
  }

  function WriteTx(t: Tables, c: Checkpoint): Result<Tables, Error>
    requires t.state.Some?
  {
    if |t.endpoints| != |c.endpoints| then Err(EndpointMismatch)
    else
      var rows :- MergeAll(t.endpoints, c.endpoints);
      var sha := CheckpointDigest(c);
      Ok(Tables(
           Some(t.state.value.(status := c.status, updatedAt := c.updatedAt, sequence := c.sequence,
                               lastError := c.lastError, checkpointSha := Some(sha), stateDigest := sha)),
           rows,
           t.history[c.sequence := HistoryRow(c.status, sha)]))
  }

  function InitialState(c: Checkpoint): StateRow {
    StateRow(c.sessionId, c.plan, PlanDigest(c.plan), c.status, c.createdAt, c.updatedAt, c.sequence, c.lastError,
             Some(CheckpointDigest(c)), CheckpointDigest(c))
  }

  function InitialRow(p: Progress): EndpointRow { EndpointRow(p.identity, p.error, map[], {}) }

  function InitialRows(ps: seq<Progress>): seq<EndpointRow> {
    seq(|ps|, i requires 0 <= i < |ps| => InitialRow(ps[i]))
  }

  function PersistTx(t: Tables, c: Checkpoint): Result<Tables, Error> {
    match t.state
    case None => WriteTx(t.(state := Some(InitialState(c)), endpoints := InitialRows(c.endpoints)), c)
    case Some(s) =>
      if s.sessionId != c.sessionId then Err(OtherSession)
      else if s.fingerprint != PlanDigest(c.plan) then Err(PlanChanged)
      else if c.sequence < s.sequence then Err(SequenceBack)
      else if c.sequence > s.sequence + 1 then Err(SequenceGap)
      else if c.sequence == s.sequence then
        if s.checkpointSha == Some(CheckpointDigest(c)) then Ok(t) else Err(SequenceCollision)
      else WriteTx(t, c)
  }

  // ---------- append_results ----------

  /** Why entry `k` of a batch is refused, if it is. */
  function EntryFault(row: EndpointRow, ports: set<int>, id: Identity, batch: seq<PortResult>, k: int): Option<Error>
    requires 0 <= k < |batch|
  {
    var r := batch[k];
    if !Canonical(r, id) then Some(BadResult)
    else if exists j :: 0 <= j < k && batch[j].port == r.port then Some(DuplicateInBatch)
    else if r.port !in ports then Some(PortOutsidePlan)
    else if r.port in row.results then
      Some(if row.results[r.port].sha != ResultDigest(r) then ResultCollision else AlreadyConfirmed)
    else None
  }

  /** The first fault of a batch, in batch order. */
  function BatchFault(row: EndpointRow, ports: set<int>, id: Identity, batch: seq<PortResult>, n: int): Option<Error>
    requires 0 <= n <= |batch|
  {
    if n == 0 then None
    else
      var earlier := BatchFault(row, ports, id, batch, n - 1);
      if earlier.Some? then earlier else EntryFault(row, ports, id, batch, n - 1)
  }

  function InsertResults(rows: map<int, ResultRow>, batch: seq<PortResult>): map<int, ResultRow> {
    if batch == [] then rows
    else
      var r := batch[|batch| - 1];
      InsertResults(rows, batch[..|batch| - 1])[r.port := NewRow(r)]
  }

  function Digests(batch: seq<PortResult>): seq<Digest> {
    seq(|batch|, i requires 0 <= i < |batch| => ResultDigest(batch[i]))
  }

  function PlanFault(mode: Mode, s: StateRow): Option<Error> {
    if !ValidPlan(s.plan) then Some(Incompatible)
    else if !PlanAllowed(mode, s.plan) then Some(PlanRejected)
    else if s.fingerprint != PlanDigest(s.plan) then Some(BadFingerprint)
    else None
  }

  /** The new state row of an incremental commit: the digest chain replaces the checkpoint digest. */
  function ChainState(s: StateRow, steps: int, now: int, lastError: Option<string>,
                      results: seq<Digest>, banner: Option<int>): StateRow
  {
    s.(status := Running, updatedAt := now, sequence := s.sequence + steps, lastError := lastError,
       checkpointSha := None,
       stateDigest := StateDigest(s.stateDigest, s.sessionId, s.sequence + steps, Running, now, results, banner))
  }

  function CommitChain(t: Tables, s: StateRow, i: nat, row: EndpointRow): Result<Tables, Error>
    requires i < |t.endpoints|
  {
    if s.sequence in t.history then Err(HistoryCollision)
    else Ok(Tables(Some(s), t.endpoints[i := row], t.history[s.sequence := HistoryRow(Running, s.stateDigest)]))
  }

  function AppendTx(mode: Mode, limit: int, t: Tables, id: Identity, batch: seq<PortResult>, now: int,
                    status: Status, lastError: Option<string>): Result<Tables, Error>
  {
    if batch == [] then Err(EmptyBatch)
    else if |batch| > limit then Err(OversizeBatch)
    else if t.state.None? then Err(NotFound)
    else
      var s := t.state.value;
      if Terminal(s.status) then Err(TerminalSession)
      else if now < s.updatedAt then Err(TimeWentBack)
      else if status != Running then Err(StatusNotRunning)
      else if PlanFault(mode, s).Some? then Err(PlanFault(mode, s).value)
      else
        var i := FindRow(t.endpoints, KeyOf(id));
        if i == |t.endpoints| then Err(UnknownEndpoint)
        else
          var row := t.endpoints[i];
          var fault := BatchFault(row, s.plan.ports, id, batch, |batch|);
          if fault.Some? then Err(fault.value)
          else CommitChain(t, ChainState(s, |batch|, now, lastError, Digests(batch), None), i,
                           row.(results := InsertResults(row.results, batch)))
  }

  // ---------- complete_banner ----------

  function BannerDocument(row: EndpointRow, port: int, banner: Option<string>): PortResult
    requires port in row.results
  {
    row.results[port].document.(banner := if banner == Some("") then None else banner)
  }

  function BannerRow(row: EndpointRow, port: int, banner: Option<string>): EndpointRow
    requires port in row.results
  {
    row.(results := row.results[port := NewRow(BannerDocument(row, port, banner))], banners := row.banners + {port})
  }

  function BannerTx(mode: Mode, t: Tables, id: Identity, port: int, banner: Option<string>, now: int)
    : Result<Tables, Error>
  {
    if t.state.None? then Err(NotFound)
    else
      var s := t.state.value;
      if Terminal(s.status) then Err(TerminalSession)
      else if now < s.updatedAt then Err(TimeWentBack)
      else if PlanFault(mode, s).Some? then Err(PlanFault(mode, s).value)
      else
        var i := FindRow(t.endpoints, KeyOf(id));
        if i == |t.endpoints| then Err(UnknownEndpoint)
        else
          var row := t.endpoints[i];
          if port !in row.results then Err(NoResultForBanner)
          else
            var document := BannerDocument(row, port, banner);
            if !Canonical(document, id) then Err(BadResult)
            else if port in row.banners then Err(BannerAlreadyConfirmed)
            else CommitChain(t, ChainState(s, 1, now, None, [ResultDigest(document)], Some(port)), i,
                             BannerRow(row, port, banner))
  }

  // ---------- load ----------

  function RowProgress(row: EndpointRow, plan: Plan): Progress {
    Progress(row.identity, map x | x in row.results :: row.results[x].document,
             plan.ports - row.results.Keys, row.banners, row.error)
  }

  predicate RowHashesMatch(row: EndpointRow) {
    forall x :: x in row.results ==> row.results[x].sha == ResultDigest(row.results[x].document)
  }

  function LoadRows(rows: seq<EndpointRow>, plan: Plan): Result<seq<Progress>, Error> {
    if rows == [] then Ok([])
    else
      var ps :- LoadRows(rows[..|rows| - 1], plan);
      var row := rows[|rows| - 1];
      if !RowHashesMatch(row) then Err(BadResultDigest)
      else if !ValidProgress(RowProgress(row, plan)) then Err(Incompatible)
      else Ok(ps + [RowProgress(row, plan)])
  }

  function LoadTx(mode: Mode, t: Tables): Result<Checkpoint, Error> {
    if t.state.None? then Err(NotFound)
    else
      var s := t.state.value;
      if PlanFault(mode, s).Some? then Err(PlanFault(mode, s).value)
      else
        var ps :- LoadRows(t.endpoints, s.plan);
        if s.sequence !in t.history || t.history[s.sequence].stateDigest != s.stateDigest then Err(BadHistory)
        else
          var c := Checkpoint(s.sessionId, s.plan, s.status, ps, s.createdAt, s.updatedAt, s.sequence, s.lastError);
          if !ValidCheckpoint(c) then Err(Incompatible)
          else if s.checkpointSha.Some? && s.checkpointSha.value != CheckpointDigest(c) then Err(BadCheckpointDigest)
          else Ok(c)
  }

  // ---------- The representation invariant ----------

  function Rebuild(t: Tables): Checkpoint
    requires t.state.Some?
  {
    var s := t.state.value;
    Checkpoint(s.sessionId, s.plan, s.status,
               seq(|t.endpoints|, i requires 0 <= i < |t.endpoints| => RowProgress(t.endpoints[i], s.plan)),
               s.createdAt, s.updatedAt, s.sequence, s.lastError)
  }

  /** History keys never pass the current sequence, so the plain INSERTs of the increments cannot collide. */
  predicate HistorySound(t: Tables)
    requires t.state.Some?
  {
    var s := t.state.value;
    && (forall k :: k in t.history ==> k <= s.sequence)
    && s.sequence in t.history
    && t.history[s.sequence].stateDigest == s.stateDigest
  }

  predicate Sound(mode: Mode, t: Tables) {
    match t.state
    case None => t.endpoints == [] && t.history == map[]
    case Some(s) =>
      && PlanFault(mode, s) == None
      && (forall i :: 0 <= i < |t.endpoints| ==> RowHashesMatch(t.endpoints[i]))
      && HistorySound(t)
      && ValidCheckpoint(Rebuild(t))
      && (s.checkpointSha.Some? ==> s.checkpointSha.value == CheckpointDigest(Rebuild(t)))
  }
}
