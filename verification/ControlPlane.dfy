/**
 * The whole control table and every client of it. `Apply` performs one atomic step of one client;
 * a sequence of steps is one interleaving of all of them.
 */
module ControlPlane {
  import opened Domain
  import opened Revisions

  const LEASE_MILLISECONDS: nat := 10 * 60 * 1000
  const RETENTION_MILLISECONDS: nat := 91 * 24 * 60 * 60 * 1000
  const ARCHIVE_LIFETIME_SECONDS: nat := 8 * 24 * 60 * 60
  const MAX_SAFE_INTEGER: nat := 9007199254740991

  datatype ChangeKey = ChangeKey(environment: Name, sequence: nat, uid: Id)

  datatype ChangeRow = ChangeRow(record: SyncRecord, ttl: Option<nat>)

  datatype World = World(
    now: nat,
    nextId: Id,
    cells: map<Id, Cell>,
    names: map<(Name, Name), Id>,
    sync: map<Name, SyncState>,
    changes: map<ChangeKey, ChangeRow>)

  /** `lag` is how far the writer's clock reading is behind the moment its transaction takes effect. */
  datatype Step =
    | Tick(elapsed: nat)
    | StartCreate(request: Request)
    | StartByName(request: Request)
    | StartByUid(uid: Id, request: Request)
    | TakeSnapshot(uid: Id, op: Id)
    | ResolveGrant(uid: Id, op: Id, consumer: Id)
    | FetchGrant(uid: Id, op: Id)
    | PrepareOp(uid: Id, op: Id, lag: nat)
    | StoreOp(uid: Id, op: Id)
    | CountOp(uid: Id, op: Id)
    | PrimeOp(uid: Id, op: Id)
    | CommitOp(uid: Id, op: Id, lag: nat)
    | StartBackfill(uid: Id)
    | ReadBackfill(uid: Id, op: Id)
    | PublishBackfill(uid: Id, op: Id, lag: nat)
    | Retry(uid: Id, key: Key)
    | Abort(uid: Id, op: Id)
    | Release(uid: Id, op: Id)
    | Due(uid: Id, key: Key)
    | Check(uid: Id, job: Id)
    | DeleteVersion(uid: Id, job: Id)
    | MarkRow(uid: Id, job: Id)
    | Expire(row: ChangeKey)
    | CreateState(environment: Name)
    | MarkReady(environment: Name)

  const Genesis := World(0, 0, map[], map[], map[], map[])

  function CellOf(w: World, uid: Id): Cell {
    if uid in w.cells then w.cells[uid] else Cell("", "", None, map[], map[], map[], map[], map[], [])
  }

  function NameKey(c: Cell): (Name, Name) {
    (c.environment, c.secretId)
  }

  /** Whether the LOOKUP of the secret's name points at this secret. */
  predicate Resolves(w: World, uid: Id) {
    NameKey(CellOf(w, uid)) in w.names && w.names[NameKey(CellOf(w, uid))] == uid
  }

  function LookupName(w: World, environment: Name, secretId: Name): Option<Id> {
    if (environment, secretId) in w.names then Some(w.names[(environment, secretId)]) else None
  }

  function StateOf(w: World, environment: Name): Option<SyncState> {
    if environment in w.sync then Some(w.sync[environment]) else None
  }

  function OnCell(w: World, uid: Id, c: Cell): World {
    if uid in w.cells then w.(cells := w.cells[uid := c]) else w
  }

  // ---------------------------------------------------------------- publication

  /** The counter's condition: STATE is still absent, or still has the sequence and epoch that were read. */
  predicate CounterHolds(w: World, environment: Name, state: Option<SyncState>) {
    match state
    case None => environment !in w.sync
    case Some(s) => environment in w.sync && w.sync[environment].sequence == s.sequence
                    && w.sync[environment].epoch == s.epoch
  }

  function NextSequence(state: Option<SyncState>): nat {
    if state.None? then 1 else state.value.sequence + 1
  }

  /** Only the sequence is set: the stored epoch and readiness stay. */
  function NextState(w: World, environment: Name, state: Option<SyncState>): SyncState {
    if state.Some? && environment in w.sync then w.sync[environment].(sequence := NextSequence(state))
    else SyncState(w.nextId, NextSequence(state), false)
  }

  function ChangeTtl(w: World, control: Control, lag: nat): Option<nat> {
    if control.state == Archived
    then Some((w.now - (if lag <= w.now then lag else w.now) + 999) / 1000 + ARCHIVE_LIFETIME_SECONDS)
    else None
  }

  /** The counter, the new CHANGE row and the removal of the previous one. */
  function PublishRows(w: World, uid: Id, control: Control, state: Option<SyncState>, previous: Option<nat>, lag: nat): World {
    var environment := control.environment;
    var sequence := NextSequence(state);
    var added := w.changes[ChangeKey(environment, sequence, uid) := ChangeRow(SyncRecordOf(uid, control), ChangeTtl(w, control, lag))];
    w.(nextId := w.nextId + 1,
       sync := w.sync[environment := NextState(w, environment, state)],
       changes := if previous.Some? then added - {ChangeKey(environment, previous.value, uid)} else added)
  }

  predicate RowFree(w: World, uid: Id, control: Control, state: Option<SyncState>) {
    ChangeKey(control.environment, NextSequence(state), uid) !in w.changes
    && NextSequence(state) <= MAX_SAFE_INTEGER
  }

  /** Contention on the counter alone starts the next attempt; any other failed condition is thrown. */
  function AfterFailure(c: Cell, o: Id, contention: bool): Cell
    requires o in c.ops && (c.ops[o].Stored? || c.ops[o].Backfilling?)
  {
    c.(ops := c.ops[o := if contention then WithStage(c.ops[o], Unread) else Stopped(MutationPrepared(c.ops[o]))])
  }

  function DropName(w: World, c: Cell, drop: bool): map<(Name, Name), Id> {
    if drop then w.names - {NameKey(c)} else w.names
  }

  function CommitStep(w: World, uid: Id, o: Id, lag: nat): World {
    var c := CellOf(w, uid);
    if uid !in w.cells || o !in c.ops || !c.ops[o].Stored? || !c.ops[o].stage.Primed? then w
    else
      var m, state, previous := c.ops[o].mutation, c.ops[o].stage.state, c.ops[o].stage.previous;
      var counter := CounterHolds(w, m.control.environment, state);
      var rest := CommitAllowed(c, o, m, Resolves(w, uid), previous) && RowFree(w, uid, m.control, state);
      if counter && rest then
        OnCell(PublishRows(w, uid, m.control, state, previous, lag).(names := DropName(w, c, m.archive)), uid,
               CommitMutation(c, o, m, NextSequence(state), w.now + RETENTION_MILLISECONDS))
      else OnCell(w, uid, AfterFailure(c, o, rest))
  }

  function PublishBackfillStep(w: World, uid: Id, o: Id, lag: nat): World {
    var c := CellOf(w, uid);
    if uid !in w.cells || o !in c.ops || !c.ops[o].Backfilling? || !c.ops[o].backfillStage.Primed? then w
    else
      var record, state, previous := c.ops[o].record, c.ops[o].backfillStage.state, c.ops[o].backfillStage.previous;
      var counter := CounterHolds(w, record.environment, state);
      var rest := BackfillAllowed(c, record) && RowFree(w, uid, record, state);
      if counter && rest then
        OnCell(PublishRows(w, uid, record, state, previous, lag), uid, CommitBackfill(c, o, NextSequence(state)))
      else OnCell(w, uid, AfterFailure(c, o, rest))
  }

  // ---------------------------------------------------------------- the other steps

  function StartCreateStep(w: World, request: Request): World {
    if !request.CreateRequest? then w
    else
      var uid, o := w.nextId, w.nextId + 1;
      w.(nextId := w.nextId + 2,
         cells := w.cells[uid := Begin(Cell(request.environment, request.secretId, None, map[], map[], map[], map[], map[], []),
                                       o, request)])
  }

  function StartStep(w: World, uid: Id, request: Request): World {
    OnCell(w, uid, Begin(CellOf(w, uid), w.nextId, request)).(nextId := w.nextId + 1)
  }

  function StartByNameStep(w: World, request: Request): World {
    if !(request.UpdateByName? || request.ArchiveRequest?) then w
    else
      var found := LookupName(w, request.environment, request.secretId);
      if found.None? then w else StartStep(w, found.value, request)
  }

  function AccessRowOf(w: World, uid: Option<Id>, consumer: Id): Option<AccessRow> {
    if uid.None? then None
    else if consumer in CellOf(w, uid.value).access then Some(CellOf(w, uid.value).access[consumer])
    else None
  }

  function PrepareStep(w: World, uid: Id, o: Id, lag: nat): World {
    var c := CellOf(w, uid);
    var expires := w.now - (if lag <= w.now then lag else w.now) + LEASE_MILLISECONDS;
    var d := Prepare(c, o, w.nextId, w.nextId + 1, NameKey(c) !in w.names, w.now, expires);
    if uid !in w.cells then w
    else
      OnCell(w, uid, d).(nextId := w.nextId + 2,
                         names := if c.head.None? && d.head.Some? then w.names[NameKey(c) := uid] else w.names)
  }

  function AbortStep(w: World, uid: Id, o: Id): World {
    var c := CellOf(w, uid);
    if uid in w.cells && AbortAllowed(c, o, Resolves(w, uid)) then
      OnCell(w, uid, AbortCreate(c, o, Resolves(w, uid))).(names := DropName(w, c, true))
    else w
  }

  /** Steps that move one client's local variables, reading the rest of the table. */
  predicate IsClientStep(step: Step) {
    step.TakeSnapshot? || step.ResolveGrant? || step.FetchGrant? || step.StoreOp? || step.CountOp? || step.PrimeOp?
    || step.StartBackfill? || step.ReadBackfill?
  }

  /** Recovery and retention steps on one secret. */
  predicate IsMaintenanceStep(step: Step) {
    step.Retry? || step.Release? || step.Due? || step.Check? || step.DeleteVersion? || step.MarkRow?
  }

  /** The name is resolved in the head's environment, under the id the request named. */
  function ResolvedName(w: World, c: Cell, o: Id): Option<Id> {
    if o in c.ops && c.ops[o].Reading? then LookupName(w, c.environment, c.ops[o].request.secretId) else None
  }

  function FetchedRow(w: World, c: Cell, o: Id): Option<AccessRow> {
    if o in c.ops && c.ops[o].Reading? && c.ops[o].lookup.Some?
    then AccessRowOf(w, c.ops[o].lookup.value.uid, c.ops[o].lookup.value.consumer)
    else None
  }

  function ClientCell(w: World, c: Cell, step: Step): Cell
    requires IsClientStep(step)
  {
    match step
    case TakeSnapshot(_, o) => ReadHead(c, o)
    case ResolveGrant(_, o, consumer) => ResolveAccess(c, o, consumer, ResolvedName(w, c, o))
    case FetchGrant(_, o) => FetchAccess(c, o, FetchedRow(w, c, o))
    case StoreOp(_, o) => StoreObjects(c, o)
    case CountOp(_, o) => ReadCounter(c, o, StateOf(w, c.environment))
    case PrimeOp(_, o) => ReadPrevious(c, o)
    case StartBackfill(_) => BeginBackfill(c, w.nextId)
    case ReadBackfill(_, o) => ReadBackfillControl(c, o)
  }

  function MaintenanceCell(w: World, c: Cell, step: Step): Cell
    requires IsMaintenanceStep(step)
  {
    match step
    case Retry(_, key) => MarkRetryable(c, key, w.now)
    case Release(_, o) => ReleaseLease(c, o)
    case Due(_, key) => ListRetention(c, w.nextId, key, w.now)
    case Check(_, job) => CheckRetention(c, job)
    case DeleteVersion(_, job) => DeleteObject(c, job)
    case MarkRow(_, job) => MarkDeleted(c, job)
  }

  predicate IsCellStep(step: Step) {
    IsClientStep(step) || IsMaintenanceStep(step)
  }

  function CellResult(w: World, c: Cell, step: Step): Cell
    requires IsCellStep(step)
  {
    if IsClientStep(step) then ClientCell(w, c, step) else MaintenanceCell(w, c, step)
  }

  function Apply(w: World, step: Step): World {
    if IsCellStep(step) then
      OnCell(w, step.uid, CellResult(w, CellOf(w, step.uid), step)).(nextId := w.nextId + 1)
    else match step
      case Tick(elapsed) => w.(now := w.now + elapsed)
      case StartCreate(request) => StartCreateStep(w, request)
      case StartByName(request) => StartByNameStep(w, request)
      case StartByUid(uid, request) => if request.UpdateByUid? then StartStep(w, uid, request) else w
      case PrepareOp(uid, o, lag) => PrepareStep(w, uid, o, lag)
      case CommitOp(uid, o, lag) => CommitStep(w, uid, o, lag)
      case PublishBackfill(uid, o, lag) => PublishBackfillStep(w, uid, o, lag)
      case Abort(uid, o) => AbortStep(w, uid, o)
      case Expire(row) =>
        if row in w.changes && w.changes[row].ttl.Some? && w.changes[row].ttl.value * 1000 <= w.now
        then w.(changes := w.changes - {row}) else w
      case CreateState(environment) =>
        if environment in w.sync then w
        else w.(nextId := w.nextId + 1, sync := w.sync[environment := SyncState(w.nextId, 0, true)])
      case MarkReady(environment) =>
        if environment in w.sync then w.(sync := w.sync[environment := w.sync[environment].(ready := true)]) else w
  }

  function Run(w: World, steps: seq<Step>): World
    decreases |steps|
  {
    if steps == [] then w else Run(Apply(w, steps[0]), steps[1..])
  }
}
