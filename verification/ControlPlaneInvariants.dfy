/** What holds after every interleaving of every client: cells, names and the sync index. */
module ControlPlaneInvariants {
  import opened Domain
  import opened Revisions
  import opened RevisionInvariants
  import opened ControlPlane

  // ---------------------------------------------------------------- cells and names

  ghost predicate CellsOk(w: World) {
    forall uid :: uid in w.cells ==> uid < w.nextId && CellInv(w.cells[uid], w.nextId)
  }

  /** A LOOKUP belongs to a secret that carries its name. */
  ghost predicate NamesOk(w: World) {
    forall name :: name in w.names ==> w.names[name] in w.cells && NameKey(w.cells[w.names[name]]) == name
  }

  lemma Weaken(c: Cell, n: Id, k: Id)
    requires CellInv(c, n) && n <= k
    ensures CellInv(c, k)
  {
  }

  /** Only one cell moves. */
  ghost predicate OneCell(w: World, v: World, uid: Id) {
    && uid in w.cells && v.cells.Keys == w.cells.Keys && w.nextId <= v.nextId
    && (forall u :: u in w.cells && u != uid ==> v.cells[u] == w.cells[u])
    && NameKey(v.cells[uid]) == NameKey(w.cells[uid])
  }

  lemma OneCellKeeps(w: World, v: World, uid: Id)
    requires CellsOk(w) && NamesOk(w) && OneCell(w, v, uid) && CellInv(v.cells[uid], v.nextId)
    requires forall name :: name in v.names ==>
               (name in w.names && v.names[name] == w.names[name]) || (v.names[name] == uid && name == NameKey(w.cells[uid]))
    ensures CellsOk(v) && NamesOk(v)
  {
    hide CellInv;
    forall u | u in v.cells ensures u < v.nextId && CellInv(v.cells[u], v.nextId) {
      if u != uid { Weaken(w.cells[u], w.nextId, v.nextId); }
    }
  }

  lemma SameCellsKeep(w: World, v: World)
    requires CellsOk(w) && NamesOk(w) && v.cells == w.cells && v.names == w.names && w.nextId <= v.nextId
    ensures CellsOk(v) && NamesOk(v)
  {
    hide CellInv;
    forall u | u in v.cells ensures u < v.nextId && CellInv(v.cells[u], v.nextId) {
      Weaken(w.cells[u], w.nextId, v.nextId);
    }
  }

  lemma StartCreateCells(w: World, request: Request)
    requires CellsOk(w) && NamesOk(w)
    ensures CellsOk(Apply(w, StartCreate(request))) && NamesOk(Apply(w, StartCreate(request)))
  {
    hide CellInv;
    if request.CreateRequest? {
      var v := Apply(w, StartCreate(request));
      var empty := Cell(request.environment, request.secretId, None, map[], map[], map[], map[], map[], []);
      EmptyCellOk(request.environment, request.secretId, v.nextId);
      BeginKeeps(empty, w.nextId + 1, request, v.nextId);
      forall u | u in v.cells ensures u < v.nextId && CellInv(v.cells[u], v.nextId) {
        if u != w.nextId { Weaken(w.cells[u], w.nextId, v.nextId); }
      }
    }
  }

  lemma StartCells(w: World, uid: Id, request: Request)
    requires CellsOk(w) && NamesOk(w) && uid in w.cells
    requires !request.UpdateByUid? ==> NameKey(w.cells[uid]) == (request.environment, request.secretId)
    ensures CellsOk(StartStep(w, uid, request)) && NamesOk(StartStep(w, uid, request))
  {
    hide CellInv;
    var v := StartStep(w, uid, request);
    Weaken(w.cells[uid], w.nextId, v.nextId);
    BeginKeeps(w.cells[uid], w.nextId, request, v.nextId);
    OneCellKeeps(w, v, uid);
  }

  lemma PrepareCells(w: World, uid: Id, o: Id, lag: nat)
    requires CellsOk(w) && NamesOk(w) && uid in w.cells
    ensures CellsOk(PrepareStep(w, uid, o, lag)) && NamesOk(PrepareStep(w, uid, o, lag))
  {
    hide CellInv, Prepare;
    var v, c := PrepareStep(w, uid, o, lag), w.cells[uid];
    var expires := w.now - (if lag <= w.now then lag else w.now) + LEASE_MILLISECONDS;
    Weaken(c, w.nextId, v.nextId);
    PrepareKeeps(c, o, w.nextId, w.nextId + 1, NameKey(c) !in w.names, w.now, expires, v.nextId);
    PrepareFrame(c, o, w.nextId, w.nextId + 1, NameKey(c) !in w.names, w.now, expires);
    OneCellKeeps(w, v, uid);
  }

  lemma PrepareFrame(c: Cell, o: Id, version: Id, payload: Id, nameFree: bool, now: nat, expires: nat)
    ensures NameKey(Prepare(c, o, version, payload, nameFree, now, expires)) == NameKey(c)
  {
  }

  lemma CellOfTable(w: World, uid: Id)
    requires CellsOk(w) && uid in w.cells
    ensures CellInv(w.cells[uid], w.nextId)
  {
    hide CellInv;
  }

  lemma FailureCells(w: World, uid: Id, o: Id, contention: bool)
    requires CellsOk(w) && NamesOk(w) && uid in w.cells && o in w.cells[uid].ops
    requires w.cells[uid].ops[o].Stored? || w.cells[uid].ops[o].Backfilling?
    ensures var v := OnCell(w, uid, AfterFailure(w.cells[uid], o, contention)); CellsOk(v) && NamesOk(v)
  {
    hide CellInv, AfterFailure, CellsOk, NamesOk;
    CellOfTable(w, uid);
    FailureKeeps(w.cells[uid], o, contention, w.nextId);
    FailureName(w.cells[uid], o, contention);
    OneCellKeeps(w, OnCell(w, uid, AfterFailure(w.cells[uid], o, contention)), uid);
  }

  lemma BackfillCell(w: World, uid: Id, o: Id, sequence: nat, n: Id)
    requires CellsOk(w) && uid in w.cells && o in w.cells[uid].ops && w.cells[uid].ops[o].Backfilling? && w.nextId <= n
    requires BackfillAllowed(w.cells[uid], w.cells[uid].ops[o].record)
    ensures var d := CommitBackfill(w.cells[uid], o, sequence);
            CellInv(d, n) && NameKey(d) == NameKey(w.cells[uid])
  {
    hide CellInv, CellsOk;
    CellOfTable(w, uid);
    CommitBackfillKeeps(w.cells[uid], o, sequence, w.nextId);
    Weaken(CommitBackfill(w.cells[uid], o, sequence), w.nextId, n);
  }

  lemma CommitCells(w: World, uid: Id, o: Id, lag: nat)
    requires CellsOk(w) && NamesOk(w) && uid in w.cells
    ensures CellsOk(CommitStep(w, uid, o, lag)) && NamesOk(CommitStep(w, uid, o, lag))
  {
    hide CellInv, CommitMutation, CommitAllowed, PublishRows, RowFree, CounterHolds, AfterFailure, CellsOk, NamesOk;
    var v, c := CommitStep(w, uid, o, lag), w.cells[uid];
    if o in c.ops && c.ops[o].Stored? && c.ops[o].stage.Primed? {
      var m, state, previous := c.ops[o].mutation, c.ops[o].stage.state, c.ops[o].stage.previous;
      var rest := CommitAllowed(c, o, m, Resolves(w, uid), previous) && RowFree(w, uid, m.control, state);
      if rest && CounterHolds(w, m.control.environment, state) {
        PublishRowsFrame(w, uid, m.control, state, previous, lag);
        CellOfTable(w, uid);
        CommitKeeps(c, o, Resolves(w, uid), previous, NextSequence(state), w.now + RETENTION_MILLISECONDS, w.nextId);
        CommitFrame(c, o, m, Resolves(w, uid), previous, NextSequence(state), w.now + RETENTION_MILLISECONDS);
        Weaken(v.cells[uid], w.nextId, v.nextId);
        OneCellKeeps(w, v, uid);
      } else {
        FailureCells(w, uid, o, rest);
      }
    }
  }

  lemma FailureName(c: Cell, o: Id, contention: bool)
    requires o in c.ops && (c.ops[o].Stored? || c.ops[o].Backfilling?)
    ensures NameKey(AfterFailure(c, o, contention)) == NameKey(c)
  {
  }

  lemma PublishRowsFrame(w: World, uid: Id, control: Control, state: Option<SyncState>, previous: Option<nat>, lag: nat)
    ensures var v := PublishRows(w, uid, control, state, previous, lag);
            v.cells == w.cells && v.names == w.names && v.nextId == w.nextId + 1 && v.now == w.now
  {
  }

  lemma CommitFrame(c: Cell, o: Id, m: Mutation, resolves: bool, previous: Option<nat>, sequence: nat, due: nat)
    requires CommitAllowed(c, o, m, resolves, previous)
    ensures NameKey(CommitMutation(c, o, m, sequence, due)) == NameKey(c)
  {
  }

  lemma FailureKeeps(c: Cell, o: Id, contention: bool, n: Id)
    requires CellInv(c, n) && o in c.ops && (c.ops[o].Stored? || c.ops[o].Backfilling?)
    ensures CellInv(AfterFailure(c, o, contention), n)
  {
    assert OpOk(c, o, c.ops[o]);
    LocalStep(c, o, if contention then WithStage(c.ops[o], Unread) else Stopped(MutationPrepared(c.ops[o])), n);
  }

  lemma PublishBackfillCells(w: World, uid: Id, o: Id, lag: nat)
    requires CellsOk(w) && NamesOk(w) && uid in w.cells
    ensures CellsOk(PublishBackfillStep(w, uid, o, lag)) && NamesOk(PublishBackfillStep(w, uid, o, lag))
  {
    hide CellInv, PublishRows, RowFree, CounterHolds, AfterFailure, CommitBackfill, CellsOk, NamesOk;
    var v, c := PublishBackfillStep(w, uid, o, lag), w.cells[uid];
    if o in c.ops && c.ops[o].Backfilling? && c.ops[o].backfillStage.Primed? {
      var record, stage := c.ops[o].record, c.ops[o].backfillStage;
      var rest := BackfillAllowed(c, record) && RowFree(w, uid, record, stage.state);
      if rest && CounterHolds(w, record.environment, stage.state) {
        PublishRowsFrame(w, uid, record, stage.state, stage.previous, lag);
        BackfillCell(w, uid, o, NextSequence(stage.state), v.nextId);
        OneCellKeeps(w, v, uid);
      } else {
        FailureCells(w, uid, o, rest);
      }
    }
  }

  lemma AbortCells(w: World, uid: Id, o: Id)
    requires CellsOk(w) && NamesOk(w) && uid in w.cells
    ensures CellsOk(Apply(w, Abort(uid, o))) && NamesOk(Apply(w, Abort(uid, o)))
  {
    hide CellInv;
    var v := Apply(w, Abort(uid, o));
    if v != w {
      AbortCreateKeeps(w.cells[uid], o, Resolves(w, uid), w.nextId);
      OneCellKeeps(w, v, uid);
    }
  }

  lemma ClientCellKeeps(w: World, c: Cell, step: Step, n: Id)
    requires IsClientStep(step) && CellInv(c, n) && w.nextId < n
    ensures CellInv(ClientCell(w, c, step), n)
  {
    hide CellInv, ReadHead, ResolveAccess, FetchAccess, StoreObjects, ReadCounter, ReadPrevious, BeginBackfill,
         ReadBackfillControl, ResolvedName, FetchedRow, StateOf;
    match step
    case TakeSnapshot(_, o) => ReadHeadKeeps(c, o, n);
    case ResolveGrant(_, o, k) => ReadAccessKeeps(c, o, k, ResolvedName(w, c, o), None, n);
    case FetchGrant(_, o) => ReadAccessKeeps(c, o, 0, None, FetchedRow(w, c, o), n);
    case StoreOp(_, o) => StoreObjectsKeeps(c, o, n);
    case CountOp(_, o) => PublishReadsKeep(c, o, StateOf(w, c.environment), n);
    case PrimeOp(_, o) => PublishReadsKeep(c, o, None, n);
    case StartBackfill(_) => BeginBackfillKeeps(c, w.nextId, n);
    case ReadBackfill(_, o) => ReadBackfillControlKeeps(c, o, n);
  }

  lemma MaintenanceCellKeeps(w: World, c: Cell, step: Step, n: Id)
    requires IsMaintenanceStep(step) && CellInv(c, n)
    ensures CellInv(MaintenanceCell(w, c, step), n)
  {
    hide CellInv, MarkRetryable, ReleaseLease, ListRetention, CheckRetention, DeleteObject, MarkDeleted;
    match step
    case Retry(_, key) => MarkRetryableKeeps(c, key, w.now, n);
    case Release(_, o) => ReleaseLeaseKeeps(c, o, n);
    case Due(_, key) => ListRetentionKeeps(c, w.nextId, key, w.now, n);
    case Check(_, job) => CheckRetentionKeeps(c, job, n);
    case DeleteVersion(_, job) => DeleteObjectKeeps(c, job, n);
    case MarkRow(_, job) => MarkDeletedKeeps(c, job, n);
  }

  /** The request a client is still working on, before it has a mutation. */
  function RequestOf(op: Op): Option<Request> {
    if op.Resolved? || op.Reading? then Some(op.request) else None
  }

  /** A client keeps or drops its request, keeps what it has prepared, and does not commit. */
  predicate LocalsMove(before: Option<Op>, after: Op) {
    && (RequestOf(after).Some? ==> before.Some? && RequestOf(before.value) == RequestOf(after))
    && (InFlight(after) ==> before.Some? && InFlight(before.value) && before.value.mutation == after.mutation)
    && (before.Some? && MutationPrepared(before.value).Some? ==> MutationPrepared(after) == MutationPrepared(before.value))
    && (after.Committed? ==> before.Some? && before.value.Committed?)
  }

  /** Of the secret, only one client's locals and the objects have changed. */
  predicate ClientMoved(c: Cell, d: Cell, o: Id) {
    && d.(objects := c.objects, ops := c.ops) == c
    && (d.ops == c.ops
        || (o in d.ops && d.ops == c.ops[o := d.ops[o]] && LocalsMove(if o in c.ops then Some(c.ops[o]) else None, d.ops[o])))
  }

  lemma ReadsMoveLocals(c: Cell, o: Id, consumer: Id, found: Option<Id>, row: Option<AccessRow>)
    ensures ClientMoved(c, ReadHead(c, o), o) && ClientMoved(c, ResolveAccess(c, o, consumer, found), o) && ClientMoved(c, FetchAccess(c, o, row), o)
  {
    HeadReadMoves(c, o);
    hide ReadHead;
  }

  lemma HeadReadMoves(c: Cell, o: Id)
    ensures ClientMoved(c, ReadHead(c, o), o)
  {
  }

  lemma WritesMoveLocals(c: Cell, o: Id, state: Option<SyncState>)
    ensures ClientMoved(c, StoreObjects(c, o), o) && ClientMoved(c, ReadCounter(c, o, state), o) && ClientMoved(c, ReadPrevious(c, o), o)
  {
  }

  lemma BackfillMovesLocals(c: Cell, o: Id)
    ensures ClientMoved(c, BeginBackfill(c, o), o) && ClientMoved(c, ReadBackfillControl(c, o), o)
  {
  }

  /** The client whose step it is. */
  function Mover(w: World, step: Step): Id
    requires IsClientStep(step)
  {
    if step.StartBackfill? then w.nextId else step.op
  }

  lemma ClientMovesLocals(w: World, c: Cell, step: Step)
    requires IsClientStep(step)
    ensures ClientMoved(c, ClientCell(w, c, step), Mover(w, step))
  {
    hide ResolvedName, FetchedRow, StateOf, ClientMoved, ReadHead, ResolveAccess, FetchAccess, StoreObjects, ReadCounter, ReadPrevious,
         BeginBackfill, ReadBackfillControl;
    match step
    case TakeSnapshot(_, o) => ReadsMoveLocals(c, o, 0, None, None);
    case ResolveGrant(_, o, consumer) => ReadsMoveLocals(c, o, consumer, ResolvedName(w, c, o), None);
    case FetchGrant(_, o) => ReadsMoveLocals(c, o, 0, None, FetchedRow(w, c, o));
    case StoreOp(_, o) => WritesMoveLocals(c, o, None);
    case CountOp(_, o) => WritesMoveLocals(c, o, StateOf(w, c.environment));
    case PrimeOp(_, o) => WritesMoveLocals(c, o, None);
    case StartBackfill(_) => BackfillMovesLocals(c, w.nextId);
    case ReadBackfill(_, o) => BackfillMovesLocals(c, o);
  }

  lemma ClientCellName(w: World, c: Cell, step: Step)
    requires IsClientStep(step)
    ensures NameKey(ClientCell(w, c, step)) == NameKey(c)
    ensures ClientCell(w, c, step).log == c.log && ClientCell(w, c, step).access == c.access
  {
    hide ClientCell, LocalsMove;
    ClientMovesLocals(w, c, step);
  }

  lemma MaintenanceCellName(w: World, c: Cell, step: Step)
    requires IsMaintenanceStep(step)
    ensures NameKey(MaintenanceCell(w, c, step)) == NameKey(c)
    ensures MaintenanceCell(w, c, step).log == c.log && MaintenanceCell(w, c, step).access == c.access
  {
  }

  /** The steps that write several items, and those that move one secret only. */
  lemma StepIs(w: World, step: Step)
    ensures step.CommitOp? ==> Apply(w, step) == CommitStep(w, step.uid, step.op, step.lag)
    ensures step.PublishBackfill? ==> Apply(w, step) == PublishBackfillStep(w, step.uid, step.op, step.lag)
    ensures step.PrepareOp? ==> Apply(w, step) == PrepareStep(w, step.uid, step.op, step.lag)
    ensures IsCellStep(step) ==> Apply(w, step) == OnCell(w, step.uid, CellResult(w, CellOf(w, step.uid), step)).(nextId := w.nextId + 1)
    ensures step.Abort? ==> Apply(w, step) == AbortStep(w, step.uid, step.op)
  {
    hide CommitStep, PublishBackfillStep, PrepareStep, AbortStep, CellResult, OnCell;
  }

  lemma CellStepFrame(w: World, step: Step)
    requires IsCellStep(step)
    ensures Apply(w, step) == OnCell(w, step.uid, CellResult(w, CellOf(w, step.uid), step)).(nextId := w.nextId + 1)
  {
    hide ClientCell, MaintenanceCell, OnCell;
  }

  lemma CellStepKeeps(w: World, step: Step)
    requires CellsOk(w) && NamesOk(w) && IsCellStep(step) && step.uid in w.cells
    ensures CellsOk(Apply(w, step)) && NamesOk(Apply(w, step))
  {
    hide CellInv, ClientCell, MaintenanceCell;
    var c, v := w.cells[step.uid], Apply(w, step);
    Weaken(c, w.nextId, v.nextId);
    if IsClientStep(step) {
      ClientCellKeeps(w, c, step, v.nextId);
      ClientCellName(w, c, step);
    } else {
      MaintenanceCellKeeps(w, c, step, v.nextId);
      MaintenanceCellName(w, c, step);
    }
    OneCellKeeps(w, v, step.uid);
  }

  predicate HasUid(step: Step) {
    IsCellStep(step) || step.StartByUid? || step.PrepareOp? || step.CommitOp? || step.PublishBackfill? || step.Abort?
  }

  function CellUid(step: Step): Id
    requires HasUid(step)
  {
    step.uid
  }

  lemma UnknownUid(w: World, step: Step)
    requires HasUid(step) && CellUid(step) !in w.cells
    ensures Apply(w, step) == w.(nextId := Apply(w, step).nextId) && w.nextId <= Apply(w, step).nextId
  {
  }

  lemma StepKeepsCells(w: World, step: Step)
    requires CellsOk(w) && NamesOk(w)
    ensures CellsOk(Apply(w, step)) && NamesOk(Apply(w, step))
  {
    hide CellInv;
    if HasUid(step) && CellUid(step) !in w.cells {
      UnknownUid(w, step);
      SameCellsKeep(w, Apply(w, step));
    } else if IsCellStep(step) {
      CellStepKeeps(w, step);
    } else {
      match step
      case StartCreate(request) => StartCreateCells(w, request);
      case StartByName(request) =>
        var found := LookupName(w, request.environment, request.secretId);
        if (request.UpdateByName? || request.ArchiveRequest?) && found.Some? { StartCells(w, found.value, request); }
      case StartByUid(uid, request) => if request.UpdateByUid? { StartCells(w, uid, request); }
      case PrepareOp(uid, o, lag) => PrepareCells(w, uid, o, lag);
      case CommitOp(uid, o, lag) => CommitCells(w, uid, o, lag);
      case PublishBackfill(uid, o, lag) => PublishBackfillCells(w, uid, o, lag);
      case Abort(uid, o) => AbortCells(w, uid, o);
      case _ => SameCellsKeep(w, Apply(w, step));
    }
  }

  /** Every interleaving keeps every secret's invariant, and every LOOKUP at a secret of that name. */
  lemma {:induction false} RunKeepsCells(w: World, steps: seq<Step>)
    requires CellsOk(w) && NamesOk(w)
    ensures CellsOk(Run(w, steps)) && NamesOk(Run(w, steps))
    decreases |steps|
  {
    if steps != [] {
      StepKeepsCells(w, steps[0]);
      RunKeepsCells(Apply(w, steps[0]), steps[1..]);
    }
  }
}

/** The sync index: one row per secret, distinct sequences below the counter, rows equal to the current revision. */
module IndexInvariants {
  import opened Domain
  import opened Revisions
  import opened RevisionInvariants
  import opened ControlPlane
  import opened ControlPlaneInvariants

  // ---------------------------------------------------------------- invariant

  /** A row is what the head's current revision publishes, under the head's stored sequence. */
  ghost predicate RowOk(w: World, key: ChangeKey, row: ChangeRow) {
    && key.uid in w.cells
    && var c := w.cells[key.uid];
       && key.environment == c.environment
       && |c.log| > 0
       && SequenceOf(c) == Some(key.sequence)
       && row.record == SyncRecordOf(key.uid, CurrentControl(c))
       && (row.ttl.Some? <==> CurrentControl(c).state == Archived)
  }

  ghost predicate ChangesOk(w: World) {
    forall key :: key in w.changes ==> RowOk(w, key, w.changes[key])
  }

  /** A published sequence is within the counter, and only an archived row may be missing. */
  ghost predicate PublishedOk(w: World, uid: Id, c: Cell) {
    SequenceOf(c).Some? ==>
      && c.environment in w.sync
      && 1 <= SequenceOf(c).value <= w.sync[c.environment].sequence
      && |c.log| > 0
      && (CurrentControl(c).state != Archived ==> ChangeKey(c.environment, SequenceOf(c).value, uid) in w.changes)
  }

  ghost predicate AllPublishedOk(w: World) {
    forall uid :: uid in w.cells ==> PublishedOk(w, uid, w.cells[uid])
  }

  ghost predicate Apart(c: Cell, d: Cell) {
    c.environment == d.environment && SequenceOf(c).Some? ==> SequenceOf(c) != SequenceOf(d)
  }

  /** Sequences within one environment are never shared. */
  ghost predicate DistinctSequences(w: World) {
    forall u, v :: u in w.cells && v in w.cells && u != v ==> Apart(w.cells[u], w.cells[v])
  }

  ghost predicate SeenState(w: World, environment: Name, state: Option<SyncState>) {
    state.Some? ==> environment in w.sync && state.value.sequence <= w.sync[environment].sequence
  }

  /** A publish attempt whose counter would still be accepted has read the head's stored sequence. */
  ghost predicate StageOk(w: World, c: Cell, stage: Stage) {
    match stage
    case Unread => true
    case Counted(state) => SeenState(w, c.environment, state)
    case Primed(state, previous) =>
      SeenState(w, c.environment, state)
      && (CounterHolds(w, c.environment, state) ==> previous == SequenceOf(c))
  }

  predicate Publishing(op: Op) {
    op.Stored? || op.Backfilling?
  }

  ghost predicate StagesOk(w: World, c: Cell) {
    forall o :: o in c.ops && Publishing(c.ops[o]) ==> StageOk(w, c, StageOf(c.ops[o]))
  }

  ghost predicate AllStagesOk(w: World) {
    forall uid :: uid in w.cells ==> StagesOk(w, w.cells[uid])
  }

  ghost predicate IndexInv(w: World) {
    ChangesOk(w) && AllPublishedOk(w) && DistinctSequences(w) && AllStagesOk(w)
  }

  // ---------------------------------------------------------------- quiet steps

  /** The cell keeps its log and its sequence, and its publish attempts stay consistent. */
  ghost predicate QuietCell(w: World, c: Cell, d: Cell) {
    d.environment == c.environment && d.log == c.log && SequenceOf(d) == SequenceOf(c) && StagesOk(w, d)
  }

  lemma QuietKeeps(w: World, v: World, uid: Id)
    requires IndexInv(w) && uid in w.cells && v.cells.Keys == w.cells.Keys
    requires forall u :: u in w.cells && u != uid ==> v.cells[u] == w.cells[u]
    requires QuietCell(w, w.cells[uid], v.cells[uid])
    requires v.sync == w.sync && v.changes == w.changes
    ensures IndexInv(v)
  {
    QuietKeepsRows(w, v, uid);
    forall u | u in v.cells ensures StagesOk(v, v.cells[u]) {
      assert StagesOk(w, v.cells[u]);
      assert forall o :: o in v.cells[u].ops && Publishing(v.cells[u].ops[o]) ==>
                           StageOk(w, v.cells[u], StageOf(v.cells[u].ops[o]));
    }
  }

  lemma QuietKeepsRows(w: World, v: World, uid: Id)
    requires ChangesOk(w) && AllPublishedOk(w) && DistinctSequences(w) && uid in w.cells && v.cells.Keys == w.cells.Keys
    requires forall u :: u in w.cells && u != uid ==> v.cells[u] == w.cells[u]
    requires v.cells[uid].environment == w.cells[uid].environment && v.cells[uid].log == w.cells[uid].log
    requires SequenceOf(v.cells[uid]) == SequenceOf(w.cells[uid])
    requires v.sync == w.sync && v.changes == w.changes
    ensures ChangesOk(v) && AllPublishedOk(v) && DistinctSequences(v)
  {
    hide PublishedOk, RowOk, Apart;
    forall key | key in v.changes ensures RowOk(v, key, v.changes[key]) { QuietKeepsRow(w, v, uid, key); }
    forall u | u in v.cells ensures PublishedOk(v, u, v.cells[u]) { QuietKeepsPublished(w, v, uid, u); }
    QuietKeepsApart(w, v, uid);
  }

  ghost predicate QuietTable(w: World, v: World, uid: Id) {
    && uid in w.cells && v.cells.Keys == w.cells.Keys
    && (forall u :: u in w.cells && u != uid ==> v.cells[u] == w.cells[u])
    && v.cells[uid].environment == w.cells[uid].environment && v.cells[uid].log == w.cells[uid].log
    && SequenceOf(v.cells[uid]) == SequenceOf(w.cells[uid])
    && v.sync == w.sync && v.changes == w.changes
  }

  lemma QuietKeepsRow(w: World, v: World, uid: Id, key: ChangeKey)
    requires QuietTable(w, v, uid) && ChangesOk(w) && key in v.changes
    ensures RowOk(v, key, v.changes[key])
  {
    assert RowOk(w, key, w.changes[key]);
  }

  lemma QuietKeepsPublished(w: World, v: World, uid: Id, u: Id)
    requires QuietTable(w, v, uid) && AllPublishedOk(w) && u in v.cells
    ensures PublishedOk(v, u, v.cells[u])
  {
    assert PublishedOk(w, u, w.cells[u]);
  }

  lemma QuietKeepsApart(w: World, v: World, uid: Id)
    requires QuietTable(w, v, uid) && DistinctSequences(w)
    ensures DistinctSequences(v)
  {
    forall a, b | a in v.cells && b in v.cells && a != b ensures Apart(v.cells[a], v.cells[b]) {
      assert Apart(w.cells[a], w.cells[b]);
    }
  }

  /** Reading HEAD after STATE: if the counter still holds, nothing was published in between. */
  lemma PrimedStageOk(w: World, c: Cell, state: Option<SyncState>)
    requires StageOk(w, c, Counted(state))
    ensures StageOk(w, c, Primed(state, SequenceOf(c)))
  {
  }

  // ---------------------------------------------------------------- publication

  /** What publishing one revision of one secret does, seen from the index. */
  ghost predicate Publishes(w: World, v: World, uid: Id, control: Control, state: Option<SyncState>,
                            previous: Option<nat>, lag: nat)
  {
    && uid in w.cells && v.cells.Keys == w.cells.Keys
    && (forall u :: u in w.cells && u != uid ==> v.cells[u] == w.cells[u])
    && CounterHolds(w, control.environment, state)
    && v.sync == PublishRows(w, uid, control, state, previous, lag).sync
    && v.changes == PublishRows(w, uid, control, state, previous, lag).changes
    && v.cells[uid].environment == w.cells[uid].environment == control.environment
    && |v.cells[uid].log| > 0 && CurrentControl(v.cells[uid]) == control
    && SequenceOf(v.cells[uid]) == Some(NextSequence(state))
    && previous == SequenceOf(w.cells[uid])
    && (forall o :: o in v.cells[uid].ops && Publishing(v.cells[uid].ops[o]) ==>
          o in w.cells[uid].ops && v.cells[uid].ops[o] == w.cells[uid].ops[o])
  }

  lemma PublishKeeps(w: World, v: World, uid: Id, control: Control, state: Option<SyncState>,
                     previous: Option<nat>, lag: nat)
    requires IndexInv(w) && Publishes(w, v, uid, control, state, previous, lag)
    ensures IndexInv(v)
  {
    PublishKeepsRows(w, v, uid, control, state, previous, lag);
    PublishKeepsSequences(w, v, uid, control, state, previous, lag);
    PublishKeepsStages(w, v, uid, control, state, previous, lag);
  }

  lemma PublishKeepsRows(w: World, v: World, uid: Id, control: Control, state: Option<SyncState>,
                         previous: Option<nat>, lag: nat)
    requires ChangesOk(w) && Publishes(w, v, uid, control, state, previous, lag)
    ensures ChangesOk(v)
  {
    forall key | key in v.changes ensures RowOk(v, key, v.changes[key]) {
      if key in w.changes { assert RowOk(w, key, w.changes[key]); }
    }
  }

  lemma PublishKeepsSequences(w: World, v: World, uid: Id, control: Control, state: Option<SyncState>,
                              previous: Option<nat>, lag: nat)
    requires AllPublishedOk(w) && DistinctSequences(w) && Publishes(w, v, uid, control, state, previous, lag)
    ensures AllPublishedOk(v) && DistinctSequences(v)
  {
    forall u | u in v.cells ensures PublishedOk(v, u, v.cells[u]) { assert PublishedOk(w, u, w.cells[u]); }
    forall a, b | a in v.cells && b in v.cells && a != b ensures Apart(v.cells[a], v.cells[b]) {
      assert Apart(w.cells[a], w.cells[b]);
      assert PublishedOk(w, a, w.cells[a]) && PublishedOk(w, b, w.cells[b]);
    }
  }

  /** Every other attempt in the environment now fails on the counter. */
  lemma PublishKeepsStages(w: World, v: World, uid: Id, control: Control, state: Option<SyncState>,
                           previous: Option<nat>, lag: nat)
    requires AllStagesOk(w) && Publishes(w, v, uid, control, state, previous, lag)
    ensures AllStagesOk(v)
  {
    forall u | u in v.cells ensures StagesOk(v, v.cells[u]) {
      assert StagesOk(w, w.cells[u]);
      forall o | o in v.cells[u].ops && Publishing(v.cells[u].ops[o])
        ensures StageOk(v, v.cells[u], StageOf(v.cells[u].ops[o]))
      {
        assert o in w.cells[u].ops && v.cells[u].ops[o] == w.cells[u].ops[o];
        assert StageOk(w, w.cells[u], StageOf(w.cells[u].ops[o]));
      }
    }
  }

  // ---------------------------------------------------------------- steps

  /** A commit whose conditions hold publishes its revision. */
  lemma CommitPublishes(w: World, uid: Id, o: Id, lag: nat)
    requires CellsOk(w) && IndexInv(w) && uid in w.cells && o in w.cells[uid].ops
    requires w.cells[uid].ops[o].Stored? && w.cells[uid].ops[o].stage.Primed?
    requires var op := w.cells[uid].ops[o];
             CounterHolds(w, op.mutation.control.environment, op.stage.state)
             && CommitAllowed(w.cells[uid], o, op.mutation, Resolves(w, uid), op.stage.previous)
             && RowFree(w, uid, op.mutation.control, op.stage.state)
    ensures var op := w.cells[uid].ops[o];
            Publishes(w, CommitStep(w, uid, o, lag), uid, op.mutation.control, op.stage.state, op.stage.previous, lag)
            && CommitStep(w, uid, o, lag).now == w.now
  {
    hide CellInv, CommitMutation, CommitAllowed, PublishRows, IndexInv, RowFree;
    var c := w.cells[uid];
    var m, state, previous := c.ops[o].mutation, c.ops[o].stage.state, c.ops[o].stage.previous;
    CommitFacts(c, o, w.nextId);
    PublishRowsFrame(w, uid, m.control, state, previous, lag);
    StageOfOp(w, uid, o);
    CommitEffect(c, o, m, Resolves(w, uid), previous, NextSequence(state), w.now + RETENTION_MILLISECONDS);
  }

  lemma CommitIndex(w: World, uid: Id, o: Id, lag: nat)
    requires CellsOk(w) && IndexInv(w)
    ensures IndexInv(CommitStep(w, uid, o, lag))
  {
    hide CellInv, CommitMutation, CommitAllowed, PublishRows, IndexInv, AfterFailure, RowFree, StageOk;
    var v, c := CommitStep(w, uid, o, lag), CellOf(w, uid);
    if uid in w.cells && o in c.ops && c.ops[o].Stored? && c.ops[o].stage.Primed? {
      var m, state, previous := c.ops[o].mutation, c.ops[o].stage.state, c.ops[o].stage.previous;
      CommitFacts(c, o, w.nextId);
      PublishRowsFrame(w, uid, m.control, state, previous, lag);
      StageOfOp(w, uid, o);
      if CounterHolds(w, m.control.environment, state)
         && CommitAllowed(c, o, m, Resolves(w, uid), previous) && RowFree(w, uid, m.control, state) {
        CommitPublishes(w, uid, o, lag);
        PublishKeeps(w, v, uid, m.control, state, previous, lag);
      } else {
        FailureIsQuiet(w, c, o, CommitAllowed(c, o, m, Resolves(w, uid), previous) && RowFree(w, uid, m.control, state));
        QuietKeeps(w, v, uid);
      }
    }
  }

  lemma CommitFacts(c: Cell, o: Id, n: Id)
    requires CellInv(c, n) && o in c.ops && c.ops[o].Stored?
    ensures c.ops[o].mutation.control.environment == c.environment
  {
    assert OpOk(c, o, c.ops[o]);
  }

  lemma CommitEffect(c: Cell, o: Id, m: Mutation, resolves: bool, previous: Option<nat>, sequence: nat, due: nat)
    requires CommitAllowed(c, o, m, resolves, previous)
    ensures var d := CommitMutation(c, o, m, sequence, due);
            && NameKey(d) == NameKey(c)
            && |d.log| > 0 && CurrentControl(d) == m.control && SequenceOf(d) == Some(sequence)
            && d.ops == c.ops[o := Committed(m)]
  {
  }

  lemma FailureIsQuiet(w: World, c: Cell, o: Id, contention: bool)
    requires StagesOk(w, c) && o in c.ops && Publishing(c.ops[o])
    ensures QuietCell(w, c, AfterFailure(c, o, contention))
  {
  }

  lemma BackfillPublishes(w: World, uid: Id, o: Id, lag: nat)
    requires CellsOk(w) && IndexInv(w) && uid in w.cells && o in w.cells[uid].ops
    requires w.cells[uid].ops[o].Backfilling? && w.cells[uid].ops[o].backfillStage.Primed?
    requires var op := w.cells[uid].ops[o];
             CounterHolds(w, op.record.environment, op.backfillStage.state)
             && BackfillAllowed(w.cells[uid], op.record) && RowFree(w, uid, op.record, op.backfillStage.state)
    ensures var op := w.cells[uid].ops[o];
            Publishes(w, PublishBackfillStep(w, uid, o, lag), uid, op.record, op.backfillStage.state, op.backfillStage.previous, lag)
            && PublishBackfillStep(w, uid, o, lag).now == w.now
  {
    hide CellInv, PublishRows, IndexInv, CommitBackfill, RowFree;
    var c := w.cells[uid];
    var record, state, previous := c.ops[o].record, c.ops[o].backfillStage.state, c.ops[o].backfillStage.previous;
    BackfillFacts(c, o, w.nextId);
    PublishRowsFrame(w, uid, record, state, previous, lag);
    StageOfOp(w, uid, o);
    BackfillEffect(c, o, NextSequence(state));
  }

  lemma BackfillIndex(w: World, uid: Id, o: Id, lag: nat)
    requires CellsOk(w) && IndexInv(w)
    ensures IndexInv(PublishBackfillStep(w, uid, o, lag))
  {
    hide CellInv, PublishRows, IndexInv, CommitBackfill, AfterFailure;
    var v, c := PublishBackfillStep(w, uid, o, lag), CellOf(w, uid);
    if uid in w.cells && o in c.ops && c.ops[o].Backfilling? && c.ops[o].backfillStage.Primed? {
      var record, state, previous := c.ops[o].record, c.ops[o].backfillStage.state, c.ops[o].backfillStage.previous;
      BackfillFacts(c, o, w.nextId);
      PublishRowsFrame(w, uid, record, state, previous, lag);
      StageOfOp(w, uid, o);
      if CounterHolds(w, record.environment, state) && BackfillAllowed(c, record) && RowFree(w, uid, record, state) {
        BackfillPublishes(w, uid, o, lag);
        PublishKeeps(w, v, uid, record, state, previous, lag);
      } else {
        FailureIsQuiet(w, c, o, BackfillAllowed(c, record) && RowFree(w, uid, record, state));
        QuietKeeps(w, v, uid);
      }
    }
  }

  lemma StagesOfCell(w: World, uid: Id)
    requires IndexInv(w) && uid in w.cells
    ensures StagesOk(w, w.cells[uid])
  {
  }

  lemma HeadOfCell(w: World, uid: Id)
    requires CellsOk(w) && uid in w.cells
    ensures HeadOk(w.cells[uid])
  {
  }

  lemma StageOfOp(w: World, uid: Id, o: Id)
    requires IndexInv(w) && uid in w.cells && o in w.cells[uid].ops && Publishing(w.cells[uid].ops[o])
    ensures StagesOk(w, w.cells[uid]) && StageOk(w, w.cells[uid], StageOf(w.cells[uid].ops[o]))
  {
  }

  lemma BackfillEffect(c: Cell, o: Id, sequence: nat)
    requires c.head.Some?
    ensures var d := CommitBackfill(c, o, sequence);
            NameKey(d) == NameKey(c) && d.log == c.log && SequenceOf(d) == Some(sequence) && d.ops == c.ops[o := Stopped(None)]
  {
  }

  /** A backfilled record that the head still names is the current revision. */
  lemma BackfillFacts(c: Cell, o: Id, n: Id)
    requires CellInv(c, n) && o in c.ops && c.ops[o].Backfilling?
    ensures c.ops[o].record.environment == c.environment
    ensures BackfillAllowed(c, c.ops[o].record) ==> |c.log| > 0 && CurrentControl(c) == c.ops[o].record
  {
    assert OpOk(c, o, c.ops[o]);
  }

  lemma CellStepIndex(w: World, step: Step)
    requires IndexInv(w) && IsCellStep(step) && step.uid in w.cells
    ensures IndexInv(Apply(w, step))
  {
    hide IndexInv, QuietCell, ClientCell, MaintenanceCell;
    StagesOfCell(w, step.uid);
    if IsClientStep(step) { ClientCellIsQuiet(w, w.cells[step.uid], step); }
    else { MaintenanceCellIsQuiet(w, w.cells[step.uid], step); }
    QuietKeeps(w, Apply(w, step), step.uid);
  }

  lemma ClientCellIsQuiet(w: World, c: Cell, step: Step)
    requires IsClientStep(step) && StagesOk(w, c)
    ensures QuietCell(w, c, ClientCell(w, c, step))
  {
    hide QuietCell;
    if step.CountOp? {
      CountIsQuiet(w, c, step.op);
    } else if step.PrimeOp? {
      PrimeIsQuiet(w, c, step.op);
    } else {
      OtherClientIsQuiet(w, c, step);
    }
  }

  lemma CountIsQuiet(w: World, c: Cell, o: Id)
    requires StagesOk(w, c)
    ensures QuietCell(w, c, ReadCounter(c, o, StateOf(w, c.environment)))
  {
  }

  /** The second read is paired with the first unless the counter has moved. */
  lemma PrimeIsQuiet(w: World, c: Cell, o: Id)
    requires StagesOk(w, c)
    ensures QuietCell(w, c, ReadPrevious(c, o))
  {
    var d := ReadPrevious(c, o);
    if d != c {
      assert StageOk(w, c, StageOf(c.ops[o]));
      PrimedStageOk(w, c, StageOf(c.ops[o]).state);
    }
  }

  lemma OtherClientIsQuiet(w: World, c: Cell, step: Step)
    requires IsClientStep(step) && !step.CountOp? && !step.PrimeOp? && StagesOk(w, c)
    ensures QuietCell(w, c, ClientCell(w, c, step))
  {
    hide QuietCell, StagesOk, ReadHead, ResolveAccess, FetchAccess, StoreObjects, BeginBackfill, ReadBackfillControl, ResolvedName, FetchedRow;
    match step
    case TakeSnapshot(_, o) => ReadHeadIsQuiet(w, c, o);
    case ResolveGrant(_, o, consumer) => ResolveIsQuiet(w, c, o, consumer, ResolvedName(w, c, o));
    case FetchGrant(_, o) => FetchIsQuiet(w, c, o, FetchedRow(w, c, o));
    case StoreOp(_, o) => StoreIsQuiet(w, c, o);
    case StartBackfill(_) => BackfillReadsAreQuiet(w, c, w.nextId);
    case ReadBackfill(_, o) => BackfillReadsAreQuiet(w, c, o);
  }

  lemma ReadHeadIsQuiet(w: World, c: Cell, o: Id)
    requires StagesOk(w, c)
    ensures QuietCell(w, c, ReadHead(c, o))
  {
    hide QuietCell, StagesOk;
    UnstagedIsQuiet(w, c, ReadHead(c, o));
  }

  lemma ResolveIsQuiet(w: World, c: Cell, o: Id, consumer: Id, found: Option<Id>)
    requires StagesOk(w, c)
    ensures QuietCell(w, c, ResolveAccess(c, o, consumer, found))
  {
    hide QuietCell, StagesOk;
    UnstagedIsQuiet(w, c, ResolveAccess(c, o, consumer, found));
  }

  lemma FetchIsQuiet(w: World, c: Cell, o: Id, row: Option<AccessRow>)
    requires StagesOk(w, c)
    ensures QuietCell(w, c, FetchAccess(c, o, row))
  {
    hide QuietCell, StagesOk;
    UnstagedIsQuiet(w, c, FetchAccess(c, o, row));
  }

  lemma StoreIsQuiet(w: World, c: Cell, o: Id)
    requires StagesOk(w, c)
    ensures QuietCell(w, c, StoreObjects(c, o))
  {
    hide QuietCell, StagesOk;
    UnstagedIsQuiet(w, c, StoreObjects(c, o));
  }

  lemma BackfillReadsAreQuiet(w: World, c: Cell, o: Id)
    requires StagesOk(w, c)
    ensures QuietCell(w, c, BeginBackfill(c, o)) && QuietCell(w, c, ReadBackfillControl(c, o))
  {
    hide QuietCell, StagesOk;
    UnstagedIsQuiet(w, c, BeginBackfill(c, o));
    UnstagedIsQuiet(w, c, ReadBackfillControl(c, o));
  }

  lemma UnstagedIsQuiet(w: World, c: Cell, d: Cell)
    requires StagesOk(w, c) && d.environment == c.environment && d.log == c.log && SequenceOf(d) == SequenceOf(c)
    requires forall o :: o in d.ops && Publishing(d.ops[o]) ==> StageOf(d.ops[o]).Unread? || (o in c.ops && d.ops[o] == c.ops[o])
    ensures QuietCell(w, c, d)
  {
  }

  lemma MaintenanceCellIsQuiet(w: World, c: Cell, step: Step)
    requires IsMaintenanceStep(step) && StagesOk(w, c)
    ensures QuietCell(w, c, MaintenanceCell(w, c, step))
  {
    var d := MaintenanceCell(w, c, step);
    forall o | o in d.ops && Publishing(d.ops[o]) ensures StageOk(w, d, StageOf(d.ops[o])) {
      assert StageOk(w, c, StageOf(c.ops[o]));
    }
  }

  lemma PrepareIndex(w: World, uid: Id, o: Id, lag: nat)
    requires CellsOk(w) && IndexInv(w) && uid in w.cells
    ensures IndexInv(PrepareStep(w, uid, o, lag))
  {
    hide IndexInv, CellInv, QuietCell, Prepare;
    var v, c := PrepareStep(w, uid, o, lag), w.cells[uid];
    StagesOfCell(w, uid);
    var expires := w.now - (if lag <= w.now then lag else w.now) + LEASE_MILLISECONDS;
    PrepareIsQuiet(w, c, o, w.nextId, w.nextId + 1, NameKey(c) !in w.names, w.now, expires);
    QuietKeeps(w, v, uid);
  }

  lemma PrepareIsQuiet(w: World, c: Cell, o: Id, version: Id, payload: Id, nameFree: bool, now: nat, expires: nat)
    requires StagesOk(w, c)
    ensures QuietCell(w, c, Prepare(c, o, version, payload, nameFree, now, expires))
  {
    var d := Prepare(c, o, version, payload, nameFree, now, expires);
    PrepareKeepsSequence(c, o, version, payload, nameFree, now, expires);
    hide Prepare, SequenceOf;
    forall x | x in d.ops && Publishing(d.ops[x]) ensures StageOk(w, d, StageOf(d.ops[x])) {
      assert StageOk(w, c, StageOf(c.ops[x]));
    }
  }

  lemma PrepareKeepsSequence(c: Cell, o: Id, version: Id, payload: Id, nameFree: bool, now: nat, expires: nat)
    ensures var d := Prepare(c, o, version, payload, nameFree, now, expires);
            && d.environment == c.environment && d.log == c.log && SequenceOf(d) == SequenceOf(c)
            && (forall x :: x in d.ops && Publishing(d.ops[x]) ==> x in c.ops && d.ops[x] == c.ops[x])
  {
    hide RowsAbsent, WithRows, NextControl, WritesPayload;
  }

  lemma AbortIndex(w: World, uid: Id, o: Id)
    requires CellsOk(w) && IndexInv(w) && uid in w.cells
    ensures IndexInv(AbortStep(w, uid, o))
  {
    hide IndexInv, CellInv, QuietCell, AbortCreate;
    var v, c := AbortStep(w, uid, o), w.cells[uid];
    StagesOfCell(w, uid);
    HeadOfCell(w, uid);
    if AbortAllowed(c, o, Resolves(w, uid)) {
      AbortIsQuiet(w, c, o, Resolves(w, uid));
      QuietKeeps(w, v, uid);
    }
  }

  /** Only a head that was never published can be aborted. */
  lemma AbortIsQuiet(w: World, c: Cell, o: Id, resolves: bool)
    requires StagesOk(w, c) && HeadOk(c) && AbortAllowed(c, o, resolves)
    ensures QuietCell(w, c, AbortCreate(c, o, resolves))
  {
    var d := AbortCreate(c, o, resolves);
    assert SequenceOf(d) == SequenceOf(c);
    forall x | x in d.ops && Publishing(d.ops[x]) ensures StageOk(w, d, StageOf(d.ops[x])) {
      assert StageOk(w, c, StageOf(c.ops[x]));
    }
  }

  lemma StartIndex(w: World, uid: Id, request: Request)
    requires IndexInv(w) && uid in w.cells
    ensures IndexInv(StartStep(w, uid, request))
  {
    hide IndexInv;
    StagesOfCell(w, uid);
    QuietKeeps(w, StartStep(w, uid, request), uid);
  }

  /** A secret without a head is in nobody's way. */
  lemma NewCellKeepsRows(w: World, v: World)
    requires ChangesOk(w) && DistinctSequences(w) && w.nextId !in w.cells
    requires v.changes == w.changes && v.sync == w.sync && w.nextId in v.cells && v.cells == w.cells[w.nextId := v.cells[w.nextId]] && v.cells[w.nextId].head.None?
    ensures ChangesOk(v) && DistinctSequences(v)
  {
    forall key | key in v.changes ensures RowOk(v, key, v.changes[key]) { assert RowOk(w, key, w.changes[key]); }
    forall a, b | a in v.cells && b in v.cells && a != b ensures Apart(v.cells[a], v.cells[b]) {
      if a in w.cells && b in w.cells { assert Apart(w.cells[a], w.cells[b]); }
    }
  }

  lemma StartCreateIndex(w: World, request: Request)
    requires CellsOk(w) && IndexInv(w)
    ensures IndexInv(StartCreateStep(w, request))
  {
    hide CellInv;
    if request.CreateRequest? {
      var v := StartCreateStep(w, request);
      assert w.nextId !in w.cells;
      NewCellKeepsRows(w, v);
      hide RowOk, Apart;
      forall u | u in v.cells ensures PublishedOk(v, u, v.cells[u]) && StagesOk(v, v.cells[u]) {
        if u in w.cells { assert PublishedOk(w, u, w.cells[u]) && StagesOk(w, w.cells[u]); }
      }
    }
  }

  /** TTL removes only archived rows. */
  /** Only an archived secret's row expires. */
  lemma ExpireKeepsRows(w: World, v: World, key: ChangeKey)
    requires IndexInv(w) && key in w.changes && w.changes[key].ttl.Some? && v == w.(changes := w.changes - {key})
    ensures ChangesOk(v) && AllPublishedOk(v)
  {
    assert RowOk(w, key, w.changes[key]);
    forall k | k in v.changes ensures RowOk(v, k, v.changes[k]) { assert RowOk(w, k, w.changes[k]); }
    forall u | u in v.cells ensures PublishedOk(v, u, v.cells[u]) { assert PublishedOk(w, u, w.cells[u]); }
  }

  lemma ExpireIndex(w: World, key: ChangeKey)
    requires IndexInv(w)
    ensures IndexInv(Apply(w, Expire(key)))
  {
    hide IndexInv, Apply;
    ExpireIs(w, key);
    if Apply(w, Expire(key)) != w { ExpiredIndex(w, w.(changes := w.changes - {key}), key); }
  }

  lemma ExpireIs(w: World, key: ChangeKey)
    ensures var v := Apply(w, Expire(key));
            v == w || (key in w.changes && w.changes[key].ttl.Some? && v == w.(changes := w.changes - {key}))
  {
  }

  lemma ExpiredIndex(w: World, v: World, key: ChangeKey)
    requires IndexInv(w) && key in w.changes && w.changes[key].ttl.Some? && v == w.(changes := w.changes - {key})
    ensures IndexInv(v)
  {
    ExpireKeepsRows(w, v, key);
    hide RowOk, PublishedOk, StagesOk;
    forall u | u in v.cells ensures StagesOk(v, v.cells[u]) {
      StagesOfCell(w, u);
      StateChangeKeepsStages(w, v, w.cells[u]);
    }
  }

  /** An empty STATE, or readiness, never disturbs what was published. */
  lemma StateIndex(w: World, environment: Name)
    requires IndexInv(w)
    ensures IndexInv(Apply(w, CreateState(environment)))
    ensures IndexInv(Apply(w, MarkReady(environment)))
  {
    hide IndexInv, Apply;
    StateCreated(w, environment);
    StateMarked(w, environment);
    StateChangeKeeps(w, Apply(w, CreateState(environment)));
    StateChangeKeeps(w, Apply(w, MarkReady(environment)));
  }

  ghost predicate StateMoved(w: World, v: World) {
    && v.cells == w.cells && v.changes == w.changes
    && (forall e :: e in w.sync ==> e in v.sync && v.sync[e].sequence == w.sync[e].sequence && v.sync[e].epoch == w.sync[e].epoch)
  }

  lemma StateCreated(w: World, environment: Name)
    ensures StateMoved(w, Apply(w, CreateState(environment)))
  {
  }

  lemma StateMarked(w: World, environment: Name)
    ensures StateMoved(w, Apply(w, MarkReady(environment)))
  {
  }

  lemma StateChangeKeeps(w: World, v: World)
    requires IndexInv(w) && v.cells == w.cells && v.changes == w.changes
    requires forall e :: e in w.sync ==> e in v.sync && v.sync[e].sequence == w.sync[e].sequence && v.sync[e].epoch == w.sync[e].epoch
    ensures IndexInv(v)
  {
    forall k | k in v.changes ensures RowOk(v, k, v.changes[k]) { assert RowOk(w, k, w.changes[k]); }
    forall u | u in v.cells ensures PublishedOk(v, u, v.cells[u]) && StagesOk(v, v.cells[u]) {
      assert PublishedOk(w, u, w.cells[u]) && StagesOk(w, w.cells[u]);
      StateChangeKeepsStages(w, v, w.cells[u]);
    }
  }

  lemma StateChangeKeepsStages(w: World, v: World, c: Cell)
    requires StagesOk(w, c)
    requires forall e :: e in w.sync ==> e in v.sync && v.sync[e].sequence == w.sync[e].sequence && v.sync[e].epoch == w.sync[e].epoch
    ensures StagesOk(v, c)
  {
    forall o | o in c.ops && Publishing(c.ops[o]) ensures StageOk(v, c, StageOf(c.ops[o])) {
      assert StageOk(w, c, StageOf(c.ops[o]));
    }
  }

  lemma StepKeepsIndex(w: World, step: Step)
    requires CellsOk(w) && IndexInv(w)
    ensures IndexInv(Apply(w, step))
  {
    hide CellInv, IndexInv;
    if HasUid(step) && CellUid(step) !in w.cells {
      UnknownUid(w, step);
      StateChangeKeeps(w, Apply(w, step));
    } else if IsCellStep(step) {
      CellStepIndex(w, step);
    } else {
      match step
      case StartCreate(request) => StartCreateIndex(w, request);
      case StartByName(request) =>
        var found := LookupName(w, request.environment, request.secretId);
        if (request.UpdateByName? || request.ArchiveRequest?) && found.Some? && found.value in w.cells {
          StartIndex(w, found.value, request);
        } else {
          StateChangeKeeps(w, Apply(w, step));
        }
      case StartByUid(uid, request) =>
        if request.UpdateByUid? { StartIndex(w, uid, request); }
      case PrepareOp(uid, o, lag) => PrepareIndex(w, uid, o, lag);
      case CommitOp(uid, o, lag) => CommitIndex(w, uid, o, lag);
      case PublishBackfill(uid, o, lag) => BackfillIndex(w, uid, o, lag);
      case Abort(uid, o) => AbortIndex(w, uid, o);
      case Expire(row) => ExpireIndex(w, row);
      case CreateState(environment) => StateIndex(w, environment);
      case MarkReady(environment) => StateIndex(w, environment);
      case Tick(elapsed) => StateChangeKeeps(w, Apply(w, step));
    }
  }
}
