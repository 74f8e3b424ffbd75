/** A secret that has lost its name never gets it back: only the create that made the secret can give it one. */
module NameHistory {
  import opened Domain
  import opened Revisions
  import opened RevisionInvariants
  import opened AccessInvariants
  import opened ControlPlane
  import opened ControlPlaneInvariants
  import opened IndexInvariants
  import opened NameInvariants
  import opened ControlPlaneTheorems
  import opened NameIdentity
  import opened AclDiscipline
  import opened SyncIndex

  /** The client's request is still the create of this secret. */
  predicate IsCreate(op: Op) {
    RequestOf(op).Some? && RequestOf(op).value.CreateRequest?
  }

  /** The create of the secret has not prepared its head yet. */
  ghost predicate PendingCreate(c: Cell) {
    exists o :: o in c.ops && IsCreate(c.ops[o])
  }

  /** A secret is made by one create, and has a name only once that create has prepared its head. */
  ghost predicate CreatesOk(w: World) {
    forall uid :: uid in w.cells ==> OneCreate(w.cells[uid]) && (Resolves(w, uid) ==> !PendingCreate(w.cells[uid]))
  }

  ghost predicate OneCreate(c: Cell) {
    forall o, p :: o in c.ops && p in c.ops && IsCreate(c.ops[o]) && IsCreate(c.ops[p]) ==> o == p
  }

  /** The secret has lost its name for good, or never gets one. */
  ghost predicate Spent(w: World, uid: Id) {
    uid in w.cells && !Resolves(w, uid) && !PendingCreate(w.cells[uid])
  }

  // ---------------------------------------------------------------- what steps keep

  /** Creates are only kept or dropped. */
  ghost predicate CreatesKept(c: Cell, d: Cell) {
    forall o :: o in d.ops && IsCreate(d.ops[o]) ==> o in c.ops && IsCreate(c.ops[o])
  }

  lemma KeptCreates(c: Cell, d: Cell)
    requires CreatesKept(c, d)
    ensures OneCreate(c) ==> OneCreate(d)
    ensures !PendingCreate(c) ==> !PendingCreate(d)
  {
  }

  lemma RequestsKeepCreates(c: Cell, d: Cell)
    requires RequestsKept(c, d)
    ensures CreatesKept(c, d)
  {
  }

  lemma BeginKeepsCreates(c: Cell, o: Id, request: Request)
    requires !request.CreateRequest?
    ensures CreatesKept(c, Begin(c, o, request))
  {
  }

  /** A prepare spends its request, whether or not its transaction goes through. */
  lemma PrepareKeepsCreates(c: Cell, o: Id, version: Id, payload: Id, nameFree: bool, now: nat, expires: nat)
    ensures var d := Prepare(c, o, version, payload, nameFree, now, expires);
            && CreatesKept(c, d)
            && (c.head.None? && d.head.Some? ==> o in c.ops && IsCreate(c.ops[o]) && o in d.ops && !IsCreate(d.ops[o]))
  {
    hide NextControl, WithRows;
  }

  lemma CommitKeepsCreates(c: Cell, o: Id, m: Mutation, sequence: nat, due: nat)
    requires c.head.Some?
    ensures CreatesKept(c, CommitMutation(c, o, m, sequence, due))
  {
    hide CommitRows, AccessProjectionChanged, AccessItems;
  }

  lemma CommitStepCreates(w: World, u: Id, o: Id, lag: nat, uid: Id)
    requires uid in w.cells && uid in CommitStep(w, u, o, lag).cells
    ensures CreatesKept(w.cells[uid], CommitStep(w, u, o, lag).cells[uid])
  {
    hide CreatesKept, CommitMutation, CommitAllowed, PublishRows, RowFree, CounterHolds, AfterFailure, RequestsKept;
    var c := CellOf(w, u);
    SameCreates(w.cells[uid]);
    if u in w.cells && o in c.ops && c.ops[o].Stored? && c.ops[o].stage.Primed? {
      var m, stage := c.ops[o].mutation, c.ops[o].stage;
      var rest := CommitAllowed(c, o, m, Resolves(w, u), stage.previous) && RowFree(w, u, m.control, stage.state);
      PublishRowsFrame(w, u, m.control, stage.state, stage.previous, lag);
      FailureKeepsRequests(c, o, rest);
      RequestsKeepCreates(c, AfterFailure(c, o, rest));
      if rest {
        ArchiveNeedsName(c, o, m, Resolves(w, u), stage.previous);
        CommitKeepsCreates(c, o, m, NextSequence(stage.state), w.now + RETENTION_MILLISECONDS);
      }
    }
  }

  lemma SameCreates(c: Cell)
    ensures CreatesKept(c, c)
  {
  }

  lemma BackfillStepCreates(w: World, u: Id, o: Id, lag: nat, uid: Id)
    requires uid in w.cells && uid in PublishBackfillStep(w, u, o, lag).cells
    ensures CreatesKept(w.cells[uid], PublishBackfillStep(w, u, o, lag).cells[uid])
  {
    hide CreatesKept, CommitBackfill, PublishRows, RowFree, CounterHolds, AfterFailure, RequestsKept;
    var c := CellOf(w, u);
    SameCreates(w.cells[uid]);
    if u in w.cells && o in c.ops && c.ops[o].Backfilling? && c.ops[o].backfillStage.Primed? {
      var record, stage := c.ops[o].record, c.ops[o].backfillStage;
      var rest := BackfillAllowed(c, record) && RowFree(w, u, record, stage.state);
      PublishRowsFrame(w, u, record, stage.state, stage.previous, lag);
      FailureKeepsRequests(c, o, rest);
      RequestsKeepCreates(c, AfterFailure(c, o, rest));
      if rest {
        BackfillKeepsRequests(c, o, NextSequence(stage.state));
        RequestsKeepCreates(c, CommitBackfill(c, o, NextSequence(stage.state)));
      }
    }
  }

  lemma CellStepCreates(w: World, step: Step, uid: Id)
    requires IsCellStep(step) && uid in w.cells && uid in Apply(w, step).cells
    ensures CreatesKept(w.cells[uid], Apply(w, step).cells[uid])
  {
    hide CreatesKept, ClientCell, MaintenanceCell, RequestsKept, Apply;
    CellStepFrame(w, step);
    SameCreates(w.cells[uid]);
    var c := CellOf(w, step.uid);
    if IsClientStep(step) { ClientKeepsRequests(w, c, step); } else { MaintenanceKeepsRequests(w, c, step); }
    RequestsKeepCreates(c, CellResult(w, c, step));
  }

  lemma PrepareStepCreates(w: World, u: Id, o: Id, lag: nat, uid: Id)
    requires uid in w.cells && uid in PrepareStep(w, u, o, lag).cells
    ensures CreatesKept(w.cells[uid], PrepareStep(w, u, o, lag).cells[uid])
  {
    hide CreatesKept, Prepare;
    SameCreates(w.cells[uid]);
    PrepareKeepsCreates(CellOf(w, u), o, w.nextId, w.nextId + 1, NameKey(CellOf(w, u)) !in w.names, w.now,
                        w.now - (if lag <= w.now then lag else w.now) + LEASE_MILLISECONDS);
  }

  lemma OtherStepCreates(w: World, step: Step, uid: Id)
    requires !IsCellStep(step) && !step.PrepareOp? && !step.CommitOp? && !step.PublishBackfill?
    requires uid in w.cells && uid < w.nextId && uid in Apply(w, step).cells
    ensures CreatesKept(w.cells[uid], Apply(w, step).cells[uid])
  {
    hide PrepareStep, CommitStep, PublishBackfillStep, AbortStep, StartStep, CreatesKept;
    SameCreates(w.cells[uid]);
    match step
    case StartByName(request) =>
      var found := LookupName(w, request.environment, request.secretId);
      if found.Some? && !request.CreateRequest? { StartStepCreates(w, found.value, request, uid); }
    case StartByUid(u, request) => if request.UpdateByUid? { StartStepCreates(w, u, request, uid); }
    case Abort(u, o) => AbortStepCreates(w, u, o, uid);
    case _ =>
  }

  lemma StartStepCreates(w: World, u: Id, request: Request, uid: Id)
    requires uid in w.cells && !request.CreateRequest?
    ensures uid in StartStep(w, u, request).cells && CreatesKept(w.cells[uid], StartStep(w, u, request).cells[uid])
  {
    hide CreatesKept, Begin;
    SameCreates(w.cells[uid]);
    BeginKeepsCreates(CellOf(w, u), w.nextId, request);
  }

  lemma AbortStepCreates(w: World, u: Id, o: Id, uid: Id)
    requires uid in w.cells
    ensures uid in AbortStep(w, u, o).cells && CreatesKept(w.cells[uid], AbortStep(w, u, o).cells[uid])
  {
    hide HasRetryable;
  }

  lemma StepKeepsCreates(w: World, step: Step, uid: Id)
    requires CellsOk(w) && uid in w.cells && uid in Apply(w, step).cells
    ensures CreatesKept(w.cells[uid], Apply(w, step).cells[uid])
  {
    hide CellsOk, CreatesKept, IsCellStep, CommitStep, PrepareStep, PublishBackfillStep, AbortStep, StartStep, StartCreateStep, StartByNameStep,
         CellResult;
    UidBelow(w, uid);
    if IsCellStep(step) { CellStepCreates(w, step, uid); }
    else if step.PrepareOp? { PrepareStepCreates(w, step.uid, step.op, step.lag, uid); }
    else if step.CommitOp? { CommitStepCreates(w, step.uid, step.op, step.lag, uid); }
    else if step.PublishBackfill? { BackfillStepCreates(w, step.uid, step.op, step.lag, uid); }
    else { OtherStepCreates(w, step, uid); }
  }

  // ---------------------------------------------------------------- names gained

  /** Only a secret's own create gives it a name, and is spent by that. */
  lemma NameGained(w: World, step: Step, uid: Id)
    requires CellsOk(w) && NamesOk(w) && uid in w.cells && !Resolves(w, uid)
    requires uid in Apply(w, step).cells && NameKey(Apply(w, step).cells[uid]) == NameKey(w.cells[uid]) && Resolves(Apply(w, step), uid)
    ensures PendingCreate(w.cells[uid]) && (OneCreate(w.cells[uid]) ==> !PendingCreate(Apply(w, step).cells[uid]))
  {
    hide CellsOk, NamesOk, CommitStep, PrepareStep, AbortStep, PublishBackfillStep, ClientCell, MaintenanceCell, NameKey, CreatesKept,
         PendingCreate;
    if step.PrepareOp? { NamePrepared(w, step.uid, step.op, step.lag, uid); }
    else { NamesOnlyLost(w, step); }
  }

  /** Other steps leave the names alone or remove one. */
  lemma NamesOnlyLost(w: World, step: Step)
    requires !step.PrepareOp?
    ensures forall name :: name in Apply(w, step).names ==> name in w.names && Apply(w, step).names[name] == w.names[name]
  {
    hide CommitStep, PrepareStep, AbortStep, PublishBackfillStep, ClientCell, MaintenanceCell, Begin;
    if step.CommitOp? { CommitNamesLost(w, step.uid, step.op, step.lag); }
    else if step.Abort? { AbortNamesLost(w, step.uid, step.op); }
    else if step.PublishBackfill? { BackfillNames(w, step.uid, step.op, step.lag); }
    else { OtherNames(w, step); }
  }

  lemma CommitNamesLost(w: World, u: Id, o: Id, lag: nat)
    ensures forall name :: name in CommitStep(w, u, o, lag).names ==> name in w.names && CommitStep(w, u, o, lag).names[name] == w.names[name]
  {
    hide CommitMutation, CommitAllowed, PublishRows, RowFree, CounterHolds, AfterFailure;
    var c := CellOf(w, u);
    if u in w.cells && o in c.ops && c.ops[o].Stored? && c.ops[o].stage.Primed? {
      PublishRowsFrame(w, u, c.ops[o].mutation.control, c.ops[o].stage.state, c.ops[o].stage.previous, lag);
    }
  }

  lemma AbortNamesLost(w: World, u: Id, o: Id)
    ensures forall name :: name in AbortStep(w, u, o).names ==> name in w.names && AbortStep(w, u, o).names[name] == w.names[name]
  {
    hide HasRetryable;
  }

  lemma NamePrepared(w: World, u: Id, o: Id, lag: nat, uid: Id)
    requires uid in w.cells && !Resolves(w, uid) && uid in PrepareStep(w, u, o, lag).cells && Resolves(PrepareStep(w, u, o, lag), uid)
    requires NameKey(PrepareStep(w, u, o, lag).cells[uid]) == NameKey(w.cells[uid])
    ensures PendingCreate(w.cells[uid]) && (OneCreate(w.cells[uid]) ==> !PendingCreate(PrepareStep(w, u, o, lag).cells[uid]))
  {
    hide Prepare, NameKey, IsCreate;
    var c := CellOf(w, u);
    var expires := w.now - (if lag <= w.now then lag else w.now) + LEASE_MILLISECONDS;
    var v := PrepareStep(w, u, o, lag);
    PrepareKeepsCreates(c, o, w.nextId, w.nextId + 1, NameKey(c) !in w.names, w.now, expires);
    if u in w.cells {
      var d := Prepare(c, o, w.nextId, w.nextId + 1, NameKey(c) !in w.names, w.now, expires);
      assert v.names == if c.head.None? && d.head.Some? then w.names[NameKey(c) := u] else w.names;
    }
  }

  // ---------------------------------------------------------------- every step

  lemma StepKeepsCreatesOk(w: World, step: Step)
    requires Sound(w) && CreatesOk(w)
    ensures CreatesOk(Apply(w, step))
  {
    hide CellsOk, NamesOk, IndexInv, Apply, PendingCreate, OneCreate, CreatesKept, NameKey;
    var v := Apply(w, step);
    forall uid | uid in v.cells ensures OneCreate(v.cells[uid]) && (Resolves(v, uid) ==> !PendingCreate(v.cells[uid])) {
      if uid in w.cells {
        UidBelow(w, uid);
        CellPersists(w, step, uid);
        StepKeepsCreates(w, step, uid);
        KeptCreates(w.cells[uid], v.cells[uid]);
        if !Resolves(w, uid) && Resolves(v, uid) { NameGained(w, step, uid); }
      } else {
        NewCellCreates(w, step, uid);
      }
    }
  }

  /** A new secret has its one create, and no name yet. */
  lemma NewCellCreates(w: World, step: Step, uid: Id)
    requires CellsOk(w) && NamesOk(w) && uid !in w.cells && uid in Apply(w, step).cells
    ensures OneCreate(Apply(w, step).cells[uid]) && !Resolves(Apply(w, step), uid)
  {
    hide CellsOk, CommitStep, PrepareStep, PublishBackfillStep, AbortStep, CellResult, StartStep;
    if step.StartCreate? {
    } else {
      KeysStay(w, step);
    }
  }

  lemma KeysStay(w: World, step: Step)
    requires !step.StartCreate?
    ensures Apply(w, step).cells.Keys == w.cells.Keys
  {
    hide CellResult, CommitMutation, CommitAllowed, PublishRows, RowFree, CounterHolds, AfterFailure, CommitBackfill, Prepare, AbortAllowed, Begin,
         BackfillAllowed;
    match step
    case CommitOp(u, o, lag) => CommitKeys(w, u, o, lag);
    case PublishBackfill(u, o, lag) => BackfillKeys(w, u, o, lag);
    case _ =>
  }

  lemma CommitKeys(w: World, u: Id, o: Id, lag: nat)
    ensures CommitStep(w, u, o, lag).cells.Keys == w.cells.Keys
  {
    hide CommitMutation, CommitAllowed, PublishRows, RowFree, CounterHolds, AfterFailure;
    var c := CellOf(w, u);
    if u in w.cells && o in c.ops && c.ops[o].Stored? && c.ops[o].stage.Primed? {
      PublishRowsFrame(w, u, c.ops[o].mutation.control, c.ops[o].stage.state, c.ops[o].stage.previous, lag);
    }
  }

  lemma BackfillKeys(w: World, u: Id, o: Id, lag: nat)
    ensures PublishBackfillStep(w, u, o, lag).cells.Keys == w.cells.Keys
  {
    hide CommitBackfill, PublishRows, RowFree, CounterHolds, AfterFailure;
    var c := CellOf(w, u);
    if u in w.cells && o in c.ops && c.ops[o].Backfilling? && c.ops[o].backfillStage.Primed? {
      PublishRowsFrame(w, u, c.ops[o].record, c.ops[o].backfillStage.state, c.ops[o].backfillStage.previous, lag);
    }
  }

  /** A name lost stays lost. */
  lemma StepKeepsSpent(w: World, step: Step, uid: Id)
    requires Sound(w) && Spent(w, uid)
    ensures Spent(Apply(w, step), uid)
  {
    hide CellsOk, NamesOk, IndexInv, Apply, PendingCreate, CreatesKept, NameKey;
    UidBelow(w, uid);
    CellPersists(w, step, uid);
    StepKeepsCreates(w, step, uid);
    KeptCreates(w.cells[uid], Apply(w, step).cells[uid]);
    if Resolves(Apply(w, step), uid) { NameGained(w, step, uid); }
  }

  lemma GenesisCreates()
    ensures CreatesOk(Genesis)
  {
  }

  lemma {:induction false} RunKeepsCreatesOk(w: World, steps: seq<Step>)
    requires Sound(w) && CreatesOk(w)
    ensures Sound(Run(w, steps)) && CreatesOk(Run(w, steps))
    decreases |steps|
  {
    hide Sound, CreatesOk, Apply;
    if steps != [] {
      StepIsSound(w, steps[0]);
      StepKeepsCreatesOk(w, steps[0]);
      RunKeepsCreatesOk(Apply(w, steps[0]), steps[1..]);
    }
  }

  lemma {:induction false} SpentStays(w: World, steps: seq<Step>, uid: Id)
    requires Sound(w) && Spent(w, uid)
    ensures Spent(Run(w, steps), uid)
    decreases |steps|
  {
    hide Sound, Spent, Apply;
    if steps != [] {
      StepIsSound(w, steps[0]);
      StepKeepsSpent(w, steps[0], uid);
      SpentStays(Apply(w, steps[0]), steps[1..], uid);
    }
  }

  /** In every run, a secret that had its name and has lost it never has it again. */
  lemma NamesNeverReturn(before: seq<Step>, between: seq<Step>, after: seq<Step>, uid: Id)
    requires Resolves(Run(Genesis, before), uid) && uid in Run(Genesis, before).cells
    requires !Resolves(Run(Run(Genesis, before), between), uid)
    ensures !Resolves(Run(Run(Run(Genesis, before), between), after), uid)
  {
    GenesisSound();
    GenesisCreates();
    hide Sound, CreatesOk, Run, Resolves, PendingCreate, Spent;
    var w := Run(Genesis, before);
    RunKeepsCreatesOk(Genesis, before);
    RunKeepsNoCreate(w, between, uid);
    RunKeepsCreatesOk(w, between);
    SpentStays(Run(w, between), after, uid);
    SpentMeans(Run(Run(w, between), after), uid);
  }

  lemma SpentMeans(w: World, uid: Id)
    ensures Spent(w, uid) ==> !Resolves(w, uid)
  {
  }

  /** Once the create is spent the secret is named or spent, at every later moment. */
  lemma {:induction false} RunKeepsNoCreate(w: World, steps: seq<Step>, uid: Id)
    requires Sound(w) && CreatesOk(w) && uid in w.cells && (Resolves(w, uid) || Spent(w, uid))
    ensures Resolves(Run(w, steps), uid) || Spent(Run(w, steps), uid)
    decreases |steps|
  {
    hide Sound, CreatesOk, Apply, Resolves, Spent;
    if steps != [] {
      StepIsSound(w, steps[0]);
      StepKeepsCreatesOk(w, steps[0]);
      NamedOrSpent(w, steps[0], uid);
      RunKeepsNoCreate(Apply(w, steps[0]), steps[1..], uid);
    }
  }

  lemma NamedOrSpent(w: World, step: Step, uid: Id)
    requires Sound(w) && CreatesOk(w) && uid in w.cells && (Resolves(w, uid) || Spent(w, uid))
    ensures uid in Apply(w, step).cells && (Resolves(Apply(w, step), uid) || Spent(Apply(w, step), uid))
  {
    hide CellsOk, NamesOk, IndexInv, Apply, PendingCreate, CreatesKept, OneCreate;
    UidBelow(w, uid);
    CellPersists(w, step, uid);
    StepKeepsCreates(w, step, uid);
    KeptCreates(w.cells[uid], Apply(w, step).cells[uid]);
  }
}
