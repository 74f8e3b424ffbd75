/** Names and access rows over the whole table: whatever the clients do, the rows of a secret that has its name follow its ACL. */
module NameInvariants {
  import opened Domain
  import opened Revisions
  import opened RevisionInvariants
  import opened AccessInvariants
  import opened ControlPlane
  import opened ControlPlaneInvariants

  /** The commit transaction of the client goes through. */
  predicate Commits(w: World, uid: Id, o: Id) {
    uid in w.cells && o in w.cells[uid].ops &&
    var c, op := w.cells[uid], w.cells[uid].ops[o];
    && op.Stored? && op.stage.Primed?
    && CounterHolds(w, op.mutation.control.environment, op.stage.state)
    && CommitAllowed(c, o, op.mutation, Resolves(w, uid), op.stage.previous) && RowFree(w, uid, op.mutation.control, op.stage.state)
  }

  /** The step replaces an ACL that grants something while the LOOKUP of the secret's name is absent or another's. */
  predicate RewritesUnnamed(w: World, step: Step) {
    step.CommitOp? && Commits(w, step.uid, step.op) && Rewrites(w.cells[step.uid].ops[step.op].mutation) && !Resolves(w, step.uid)
  }

  ghost predicate NeverRewritesUnnamed(w: World, steps: seq<Step>)
    decreases |steps|
  {
    steps == [] || (!RewritesUnnamed(w, steps[0]) && NeverRewritesUnnamed(Apply(w, steps[0]), steps[1..]))
  }

  /** The step commits a revision with an ACL while the LOOKUP of the secret's name is absent or another's. */
  predicate GrantsUnnamed(w: World, step: Step) {
    step.CommitOp? && Commits(w, step.uid, step.op)
    && w.cells[step.uid].ops[step.op].mutation.control.acl != map[] && !Resolves(w, step.uid)
  }

  ghost predicate NeverGrantsUnnamed(w: World, steps: seq<Step>)
    decreases |steps|
  {
    steps == [] || (!GrantsUnnamed(w, steps[0]) && NeverGrantsUnnamed(Apply(w, steps[0]), steps[1..]))
  }

  ghost predicate NamedAll(w: World) {
    forall uid :: uid in w.cells ==> NamedInv(w.cells[uid], uid, Resolves(w, uid))
  }

  lemma CellFacts(w: World, uid: Id)
    requires CellsOk(w) && uid in w.cells
    ensures CellInv(w.cells[uid], w.nextId)
  {
    hide CellInv;
  }

  lemma NamedFacts(w: World, uid: Id)
    requires NamedAll(w) && uid in w.cells
    ensures NamedInv(w.cells[uid], uid, Resolves(w, uid))
  {
    hide NamedInv;
  }

  lemma LeaseFacts(c: Cell, n: Id)
    requires CellInv(c, n)
    ensures LeaseOk(c)
  {
  }

  /** One cell moves, and at most its own LOOKUP appears or disappears. */
  lemma OneCellNamed(w: World, v: World, uid: Id)
    requires NamesOk(w) && NamedAll(w) && OneCell(w, v, uid)
    requires v.names == w.names || (v.names == w.names - {NameKey(w.cells[uid])} && Resolves(w, uid))
             || (v.names == w.names[NameKey(w.cells[uid]) := uid] && NameKey(w.cells[uid]) !in w.names)
    requires NamedInv(v.cells[uid], uid, Resolves(v, uid))
    ensures NamedAll(v)
  {
    hide NamedInv;
    forall u | u in v.cells ensures NamedInv(v.cells[u], u, Resolves(v, u)) {
      if u != uid { assert Resolves(v, u) == Resolves(w, u); }
    }
  }

  lemma SameCellsNamed(w: World, v: World)
    requires NamedAll(w) && v.cells == w.cells && v.names == w.names
    ensures NamedAll(v)
  {
    hide NamedInv;
    forall u | u in v.cells ensures NamedInv(v.cells[u], u, Resolves(v, u)) {
      assert Resolves(v, u) == Resolves(w, u);
    }
  }

  // ---------------------------------------------------------------- cell steps

  lemma ClientCellNamed(w: World, uid: Id, step: Step)
    requires CellsOk(w) && NamesOk(w) && NamedAll(w) && IsClientStep(step) && uid in w.cells
    ensures NamedInv(ClientCell(w, w.cells[uid], step), uid, Resolves(w, uid))
  {
    hide CellInv, NamedInv, ReadHead, ResolveAccess, FetchAccess, ReadCounter, ReadPrevious, StateOf,
         StoreObjects, BeginBackfill, ReadBackfillControl, LeaseOk, CellsOk, NamesOk, NamedAll, Resolves,
         ResolvedName, FetchedRow;
    var c, resolves := w.cells[uid], Resolves(w, uid);
    CellFacts(w, uid);
    NamedFacts(w, uid);
    LeaseFacts(c, w.nextId);
    match step
    case TakeSnapshot(_, o) => ReadHeadNamed(c, o, uid, resolves);
    case ResolveGrant(_, o, k) => ResolveGrantNamed(w, uid, o, k);
    case FetchGrant(_, o) => FetchGrantNamed(w, uid, o);
    case CountOp(_, o) => PublishReadsNamed(c, o, StateOf(w, c.environment), uid, resolves);
    case PrimeOp(_, o) => PublishReadsNamed(c, o, None, uid, resolves);
    case StoreOp(_, o) => StoreNamed(c, o, uid, resolves);
    case StartBackfill(_) => BackfillNamed(c, w.nextId, uid, resolves);
    case ReadBackfill(_, o) => BackfillNamed(c, o, uid, resolves);
  }

  lemma ResolveGrantNamed(w: World, uid: Id, o: Id, k: Id)
    requires CellsOk(w) && NamedAll(w) && uid in w.cells
    ensures NamedInv(ResolveAccess(w.cells[uid], o, k, ResolvedName(w, w.cells[uid], o)), uid, Resolves(w, uid))
  {
    hide NamedInv;
    var c := w.cells[uid];
    NamedFacts(w, uid);
    ReadingNames(c, o, w.nextId);
    hide CellInv;
    if o in c.ops && c.ops[o].Reading? {
      ResolveAccessNamed(c, o, k, ResolvedName(w, c, o), uid, Resolves(w, uid), w.nextId);
    }
  }

  lemma ReadingNames(c: Cell, o: Id, n: Id)
    requires CellInv(c, n)
    ensures o in c.ops && c.ops[o].Reading? ==>
              c.ops[o].request.environment == c.environment && c.ops[o].request.secretId == c.secretId
  {
    assert o in c.ops ==> OpOk(c, o, c.ops[o]);
  }

  lemma FetchGrantNamed(w: World, uid: Id, o: Id)
    requires CellsOk(w) && NamedAll(w) && uid in w.cells
    ensures NamedInv(FetchAccess(w.cells[uid], o, FetchedRow(w, w.cells[uid], o)), uid, Resolves(w, uid))
  {
    hide NamedInv, CellInv, LeaseOk;
    CellFacts(w, uid);
    NamedFacts(w, uid);
    LeaseFacts(w.cells[uid], w.nextId);
    FetchAccessNamed(w.cells[uid], o, FetchedRow(w, w.cells[uid], o), uid, Resolves(w, uid));
  }

  lemma StoreNamed(c: Cell, o: Id, uid: Id, resolves: bool)
    requires NamedInv(c, uid, resolves) && LeaseOk(c)
    ensures NamedInv(StoreObjects(c, o), uid, resolves)
  {
    var d := StoreObjects(c, o);
    if d != c {
      var e := c.(ops := d.ops);
      NamedLocal(c, o, d.ops[o], uid, resolves);
      NamedFramed(e, d, uid, resolves);
    }
  }

  lemma BackfillNamed(c: Cell, o: Id, uid: Id, resolves: bool)
    requires NamedInv(c, uid, resolves) && LeaseOk(c)
    ensures NamedInv(BeginBackfill(c, o), uid, resolves)
    ensures NamedInv(ReadBackfillControl(c, o), uid, resolves)
  {
    var d, e := BeginBackfill(c, o), ReadBackfillControl(c, o);
    if d != c { NamedLocal(c, o, d.ops[o], uid, resolves); }
    if e != c { NamedLocal(c, o, e.ops[o], uid, resolves); }
  }

  lemma MaintenanceCellNamed(w: World, c: Cell, step: Step, uid: Id, resolves: bool)
    requires NamedInv(c, uid, resolves) && IsMaintenanceStep(step)
    ensures NamedInv(MaintenanceCell(w, c, step), uid, resolves)
  {
    hide NamedInv;
    MaintenanceIsSame(w, c, step);
    NamedFramed(c, MaintenanceCell(w, c, step), uid, resolves);
  }

  lemma MaintenanceIsSame(w: World, c: Cell, step: Step)
    requires IsMaintenanceStep(step)
    ensures SameNamed(c, MaintenanceCell(w, c, step)) && MaintenanceCell(w, c, step).ops == c.ops
  {
    hide MarkRetryable, ReleaseLease, ListRetention, CheckRetention, DeleteObject, MarkDeleted;
    if step.Retry? || step.Release? { RecoveryIsSame(w, c, step); }
    else { RetentionIsSame(w, c, step); }
  }

  lemma RecoveryIsSame(w: World, c: Cell, step: Step)
    requires step.Retry? || step.Release?
    ensures SameNamed(c, MaintenanceCell(w, c, step)) && MaintenanceCell(w, c, step).ops == c.ops
  {
    hide ListRetention, CheckRetention, DeleteObject, MarkDeleted;
  }

  lemma RetentionIsSame(w: World, c: Cell, step: Step)
    requires IsMaintenanceStep(step) && !step.Retry? && !step.Release?
    ensures SameNamed(c, MaintenanceCell(w, c, step)) && MaintenanceCell(w, c, step).ops == c.ops
  {
    hide MarkRetryable, ReleaseLease, DeleteObject, MarkDeleted;
    if step.DeleteVersion? { DeleteIsSame(c, step.job); }
    if step.MarkRow? { DeleteIsSame(c, step.job); }
  }

  lemma DeleteIsSame(c: Cell, j: Id)
    ensures SameNamed(c, DeleteObject(c, j)) && DeleteObject(c, j).ops == c.ops
    ensures SameNamed(c, MarkDeleted(c, j)) && MarkDeleted(c, j).ops == c.ops
  {
  }

  lemma CellStepNamed(w: World, step: Step)
    requires CellsOk(w) && NamesOk(w) && NamedAll(w) && IsCellStep(step) && step.uid in w.cells
    ensures NamedAll(Apply(w, step))
  {
    hide CellInv, NamedInv, ClientCell, MaintenanceCell, CellsOk, NamesOk, Resolves, OneCell;
    var uid := step.uid;
    hide IsClientStep, IsMaintenanceStep;
    NamedFacts(w, uid);
    if IsClientStep(step) { ClientCellNamed(w, uid, step); }
    else { MaintenanceCellNamed(w, w.cells[uid], step, uid, Resolves(w, uid)); }
    CellStepIsLocal(w, step);
    OneCellNamed(w, Apply(w, step), uid);
  }

  lemma CellStepIsLocal(w: World, step: Step)
    requires IsCellStep(step) && step.uid in w.cells
    ensures OneCell(w, Apply(w, step), step.uid) && Apply(w, step).names == w.names
    ensures Apply(w, step).cells[step.uid] == CellResult(w, w.cells[step.uid], step)
    ensures Resolves(Apply(w, step), step.uid) == Resolves(w, step.uid)
  {
    hide ClientCell, MaintenanceCell;
    if IsClientStep(step) { ClientCellName(w, w.cells[step.uid], step); }
    else { MaintenanceCellName(w, w.cells[step.uid], step); }
  }

  // ---------------------------------------------------------------- other steps

  lemma StartNamed(w: World, uid: Id, request: Request)
    requires CellsOk(w) && NamesOk(w) && NamedAll(w) && uid in w.cells
    ensures NamedAll(StartStep(w, uid, request))
  {
    hide CellInv, NamedInv, LeaseOk, CellsOk, NamesOk, NamedAll, StartStep, OneCell, Begin, Resolves;
    CellFacts(w, uid);
    NamedFacts(w, uid);
    LeaseFacts(w.cells[uid], w.nextId);
    BeginNamed(w.cells[uid], w.nextId, request, uid, Resolves(w, uid));
    StartIsLocal(w, uid, request);
    OneCellNamed(w, StartStep(w, uid, request), uid);
  }

  lemma StartIsLocal(w: World, uid: Id, request: Request)
    requires uid in w.cells
    ensures var v := StartStep(w, uid, request);
            && OneCell(w, v, uid) && v.names == w.names && v.cells[uid] == Begin(w.cells[uid], w.nextId, request)
            && Resolves(v, uid) == Resolves(w, uid) && v.nextId == w.nextId + 1
  {
  }

  lemma StartCreateNamed(w: World, request: Request)
    requires CellsOk(w) && NamesOk(w) && NamedAll(w)
    ensures NamedAll(StartCreateStep(w, request))
  {
    hide CellInv;
    if request.CreateRequest? {
      var v := StartCreateStep(w, request);
      assert w.nextId !in w.cells;
      NewCellNamed(request, w.nextId, w.nextId + 1);
      hide NamedInv;
      forall u | u in v.cells ensures NamedInv(v.cells[u], u, Resolves(v, u)) {
        assert !Resolves(v, w.nextId);
        if u != w.nextId { assert Resolves(v, u) == Resolves(w, u); }
      }
    }
  }

  lemma NewCellNamed(request: Request, uid: Id, o: Id)
    requires request.CreateRequest?
    ensures NamedInv(Begin(Cell(request.environment, request.secretId, None, map[], map[], map[], map[], map[], []), o, request),
                     uid, false)
  {
  }

  lemma PrepareWorldNamed(w: World, uid: Id, o: Id, lag: nat)
    requires CellsOk(w) && NamesOk(w) && NamedAll(w) && uid in w.cells
    ensures NamedAll(PrepareStep(w, uid, o, lag))
  {
    hide CellInv, NamedInv, Prepare, CellsOk, NamesOk, NamedAll;
    var v, c := PrepareStep(w, uid, o, lag), w.cells[uid];
    var expires := w.now - (if lag <= w.now then lag else w.now) + LEASE_MILLISECONDS;
    CellFacts(w, uid);
    NamedFacts(w, uid);
    PrepareFrame(c, o, w.nextId, w.nextId + 1, NameKey(c) !in w.names, w.now, expires);
    PrepareCreatesWhenFree(c, o, w.nextId, w.nextId + 1, NameKey(c) !in w.names, w.now, expires);
    PrepareNamed(c, o, w.nextId, w.nextId + 1, NameKey(c) !in w.names, w.now, expires, uid, Resolves(w, uid),
                 Resolves(v, uid), w.nextId);
    OneCellNamed(w, v, uid);
  }

  lemma PrepareCreatesWhenFree(c: Cell, o: Id, version: Id, payload: Id, nameFree: bool, now: nat, expires: nat)
    ensures var d := Prepare(c, o, version, payload, nameFree, now, expires);
            c.head.None? && d.head.Some? ==> nameFree
  {
  }

  lemma ArchiveNeedsName(c: Cell, o: Id, m: Mutation, resolves: bool, previous: Option<nat>)
    requires CommitAllowed(c, o, m, resolves, previous)
    ensures c.head.Some? && (m.archive ==> resolves)
  {
    hide TransactionSize, HasRow;
  }

  lemma CommitWorldNamed(w: World, uid: Id, o: Id, lag: nat)
    requires CellsOk(w) && NamesOk(w) && NamedAll(w) && uid in w.cells
    ensures NamedAll(CommitStep(w, uid, o, lag))
  {
    hide CellInv, NamedInv, CommitMutation, PublishRows, AfterFailure, RowFree, CounterHolds, CommitAllowed, CellsOk, NamesOk, NamedAll;
    var c := w.cells[uid];
    if o in c.ops && c.ops[o].Stored? && c.ops[o].stage.Primed? {
      var m, state, previous := c.ops[o].mutation, c.ops[o].stage.state, c.ops[o].stage.previous;
      if CounterHolds(w, m.control.environment, state) && CommitAllowed(c, o, m, Resolves(w, uid), previous) && RowFree(w, uid, m.control, state) {
        CommitSucceedsNamed(w, uid, o, lag);
      } else {
        FailsNamed(w, uid, o, CommitAllowed(c, o, m, Resolves(w, uid), previous) && RowFree(w, uid, m.control, state));
      }
    }
  }

  lemma CommitSucceedsNamed(w: World, uid: Id, o: Id, lag: nat)
    requires CellsOk(w) && NamesOk(w) && NamedAll(w) && uid in w.cells && o in w.cells[uid].ops
    requires w.cells[uid].ops[o].Stored? && w.cells[uid].ops[o].stage.Primed?
    requires var op := w.cells[uid].ops[o];
             CounterHolds(w, op.mutation.control.environment, op.stage.state)
             && CommitAllowed(w.cells[uid], o, op.mutation, Resolves(w, uid), op.stage.previous)
             && RowFree(w, uid, op.mutation.control, op.stage.state)
    ensures NamedAll(CommitStep(w, uid, o, lag))
  {
    hide CellInv, NamedInv, CommitMutation, PublishRows, AfterFailure, RowFree, CounterHolds, CommitAllowed, CellsOk, NamesOk, NamedAll;
    var v, c := CommitStep(w, uid, o, lag), w.cells[uid];
    var m, state, previous := c.ops[o].mutation, c.ops[o].stage.state, c.ops[o].stage.previous;
    CellFacts(w, uid);
    NamedFacts(w, uid);
    PublishRowsFrame(w, uid, m.control, state, previous, lag);
    CommitFrame(c, o, m, Resolves(w, uid), previous, NextSequence(state), w.now + RETENTION_MILLISECONDS);
    CommitNamed(c, o, previous, NextSequence(state), w.now + RETENTION_MILLISECONDS, uid, Resolves(w, uid), w.nextId);
    ArchiveNeedsName(c, o, m, Resolves(w, uid), previous);
    OneCellNamed(w, v, uid);
  }

  lemma FailsNamed(w: World, uid: Id, o: Id, contention: bool)
    requires CellsOk(w) && NamesOk(w) && NamedAll(w) && uid in w.cells && o in w.cells[uid].ops
    requires w.cells[uid].ops[o].Stored? || w.cells[uid].ops[o].Backfilling?
    ensures NamedAll(OnCell(w, uid, AfterFailure(w.cells[uid], o, contention)))
  {
    hide CellInv, NamedInv, AfterFailure, CellsOk, NamesOk, NamedAll;
    CellFacts(w, uid);
    NamedFacts(w, uid);
    FailureName(w.cells[uid], o, contention);
    FailureNamed(w.cells[uid], o, contention, uid, Resolves(w, uid), w.nextId);
    OneCellNamed(w, OnCell(w, uid, AfterFailure(w.cells[uid], o, contention)), uid);
  }

  lemma FailureNamed(c: Cell, o: Id, contention: bool, uid: Id, resolves: bool, n: Id)
    requires CellInv(c, n) && NamedInv(c, uid, resolves) && o in c.ops && (c.ops[o].Stored? || c.ops[o].Backfilling?)
    ensures NamedInv(AfterFailure(c, o, contention), uid, resolves)
  {
    LeaseFacts(c, n);
    hide CellInv;
    NamedLocal(c, o, if contention then WithStage(c.ops[o], Unread) else Stopped(MutationPrepared(c.ops[o])), uid, resolves);
  }

  lemma PublishBackfillNamed(w: World, uid: Id, o: Id, lag: nat)
    requires CellsOk(w) && NamesOk(w) && NamedAll(w) && uid in w.cells
    ensures NamedAll(PublishBackfillStep(w, uid, o, lag))
  {
    hide CellInv, NamedInv, PublishRows, AfterFailure, RowFree, CounterHolds, CommitBackfill, CellsOk, NamesOk, NamedAll;
    var c := w.cells[uid];
    if o in c.ops && c.ops[o].Backfilling? && c.ops[o].backfillStage.Primed? {
      var record, stage := c.ops[o].record, c.ops[o].backfillStage;
      if CounterHolds(w, record.environment, stage.state) && BackfillAllowed(c, record) && RowFree(w, uid, record, stage.state) {
        BackfillSucceedsNamed(w, uid, o, lag);
      } else {
        FailsNamed(w, uid, o, BackfillAllowed(c, record) && RowFree(w, uid, record, stage.state));
      }
    }
  }

  lemma BackfillSucceedsNamed(w: World, uid: Id, o: Id, lag: nat)
    requires CellsOk(w) && NamesOk(w) && NamedAll(w) && uid in w.cells && o in w.cells[uid].ops
    requires w.cells[uid].ops[o].Backfilling? && w.cells[uid].ops[o].backfillStage.Primed?
    requires var op := w.cells[uid].ops[o];
             CounterHolds(w, op.record.environment, op.backfillStage.state) && BackfillAllowed(w.cells[uid], op.record)
             && RowFree(w, uid, op.record, op.backfillStage.state)
    ensures NamedAll(PublishBackfillStep(w, uid, o, lag))
  {
    hide CellInv, NamedInv, PublishRows, AfterFailure, RowFree, CounterHolds, CommitBackfill, CellsOk, NamesOk, NamedAll;
    var v, c := PublishBackfillStep(w, uid, o, lag), w.cells[uid];
    var record, stage := c.ops[o].record, c.ops[o].backfillStage;
    CellFacts(w, uid);
    NamedFacts(w, uid);
    PublishRowsFrame(w, uid, record, stage.state, stage.previous, lag);
    CommitBackfillNamed(c, o, NextSequence(stage.state), uid, Resolves(w, uid), w.nextId);
    OneCellNamed(w, v, uid);
  }

  lemma CommitBackfillNamed(c: Cell, o: Id, sequence: nat, uid: Id, resolves: bool, n: Id)
    requires CellInv(c, n) && NamedInv(c, uid, resolves) && c.head.Some? && o in c.ops && c.ops[o].Backfilling?
    ensures NamedInv(CommitBackfill(c, o, sequence), uid, resolves)
    ensures NameKey(CommitBackfill(c, o, sequence)) == NameKey(c)
  {
    LeaseFacts(c, n);
    hide CellInv;
    var d := CommitBackfill(c, o, sequence);
    var e := c.(ops := d.ops);
    NamedLocal(c, o, Stopped(None), uid, resolves);
    NamedFramed(e, d, uid, resolves);
  }

  lemma AbortWorldNamed(w: World, uid: Id, o: Id)
    requires CellsOk(w) && NamesOk(w) && NamedAll(w) && uid in w.cells
    ensures NamedAll(AbortStep(w, uid, o))
  {
    hide CellInv, NamedInv, HasRetryable;
    var v, c := AbortStep(w, uid, o), w.cells[uid];
    if AbortAllowed(c, o, Resolves(w, uid)) {
      CellFacts(w, uid);
      NamedFacts(w, uid);
      AbortNamed(c, o, uid, Resolves(w, uid), w.nextId);
      OneCellNamed(w, v, uid);
    }
  }

  lemma StepKeepsNamed(w: World, step: Step)
    requires CellsOk(w) && NamesOk(w) && NamedAll(w)
    ensures NamedAll(Apply(w, step))
  {
    hide CellInv, NamedInv, NamedAll, ClientCell, MaintenanceCell, Commits;
    if HasUid(step) && CellUid(step) !in w.cells {
      UnknownUid(w, step);
      SameCellsNamed(w, Apply(w, step));
    } else if IsCellStep(step) {
      CellStepNamed(w, step);
    } else {
      match step
      case StartCreate(request) => StartCreateNamed(w, request);
      case StartByName(request) =>
        var found := LookupName(w, request.environment, request.secretId);
        if (request.UpdateByName? || request.ArchiveRequest?) && found.Some? {
          StartNamed(w, found.value, request);
        } else {
          SameCellsNamed(w, Apply(w, step));
        }
      case StartByUid(uid, request) => if request.UpdateByUid? { StartNamed(w, uid, request); }
      case PrepareOp(uid, o, lag) => PrepareWorldNamed(w, uid, o, lag);
      case CommitOp(uid, o, lag) => CommitWorldNamed(w, uid, o, lag);
      case PublishBackfill(uid, o, lag) => PublishBackfillNamed(w, uid, o, lag);
      case Abort(uid, o) => AbortWorldNamed(w, uid, o);
      case _ => SameCellsNamed(w, Apply(w, step));
    }
  }
}
