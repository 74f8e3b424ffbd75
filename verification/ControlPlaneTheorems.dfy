/** The main results about every run of the control plane. */
module ControlPlaneTheorems {
  import opened Domain
  import opened Revisions
  import opened RevisionInvariants
  import opened AccessInvariants
  import opened ControlPlane
  import opened ControlPlaneInvariants
  import opened IndexInvariants
  import opened NameInvariants

  ghost predicate Sound(w: World) {
    CellsOk(w) && NamesOk(w) && IndexInv(w)
  }

  lemma GenesisSound()
    ensures Sound(Genesis) && NamedAll(Genesis)
  {
  }

  /** Every step of every client keeps the table sound. */
  lemma {:induction false} RunIsSound(w: World, steps: seq<Step>)
    requires Sound(w)
    ensures Sound(Run(w, steps))
    decreases |steps|
  {
    hide CellsOk, NamesOk, IndexInv, Apply;
    if steps != [] {
      StepKeepsCells(w, steps[0]);
      StepKeepsIndex(w, steps[0]);
      RunIsSound(Apply(w, steps[0]), steps[1..]);
    }
  }

  lemma {:induction false} RunIsNamed(w: World, steps: seq<Step>)
    requires Sound(w) && NamedAll(w)
    ensures Sound(Run(w, steps)) && NamedAll(Run(w, steps))
    decreases |steps|
  {
    hide CellsOk, NamesOk, IndexInv, NamedAll, Apply;
    if steps != [] {
      StepKeepsCells(w, steps[0]);
      StepKeepsIndex(w, steps[0]);
      StepKeepsNamed(w, steps[0]);
      RunIsNamed(Apply(w, steps[0]), steps[1..]);
    }
  }

  // ---------------------------------------------------------------- no lost update

  /**
   * Committed revisions of a secret form one chain, each computed from its predecessor, and while an
   * update holds the lease HEAD still carries exactly the revision the update was computed from.
   */
  lemma NoLostUpdate(steps: seq<Step>, uid: Id, i: nat, o: Id)
    requires uid in Run(Genesis, steps).cells
    ensures var c := Run(Genesis, steps).cells[uid];
            && (0 < i < |c.log| ==> c.log[i].base == Some(c.log[i - 1].control)
                                    && c.log[i].control.version != c.log[i - 1].control.version)
            && (IsReady(c) ==> |c.log| > 0 && c.head.value.control == CurrentControl(c).version)
            && (c.head.Some? && c.head.value.lease.Some? && c.head.value.lease.value.owner == o
                && o in c.ops && InFlight(c.ops[o]) && c.ops[o].mutation.base.Some? ==>
                  |c.log| > 0 && c.ops[o].mutation.base.value.control == CurrentControl(c))
  {
    GenesisSound();
    RunIsSound(Genesis, steps);
    var w := Run(Genesis, steps);
    CellFacts(w, uid);
    hide Run, CellsOk, IndexInv, NamesOk;
    var c := w.cells[uid];
    if c.head.Some? && c.head.value.lease.Some? && c.head.value.lease.value.owner == o && o in c.ops && InFlight(c.ops[o]) {
      LeaseMeansCurrent(c, o, w.nextId);
    }
  }

  // ---------------------------------------------------------------- retention

  /** A READY head's control and payload objects exist and are the ones its commit wrote. */
  lemma ReferencedObjectsSurvive(steps: seq<Step>, uid: Id)
    requires uid in Run(Genesis, steps).cells && IsReady(Run(Genesis, steps).cells[uid])
    ensures var c := Run(Genesis, steps).cells[uid];
            var h := c.head.value;
            && |c.log| > 0
            && h.controlObject == Some(ControlKey(h.control))
            && ControlKey(h.control) in c.objects && c.objects[ControlKey(h.control)] == ControlDocument(CurrentControl(c))
            && h.payload == CurrentControl(c).payload && h.state == CurrentControl(c).state
            && (h.payload.Some? ==> h.payloadObject == Some(PayloadKey(h.payload.value))
                                    && PayloadKey(h.payload.value) in c.objects)
            && (h.state == Active ==> h.payload.Some?)
  {
    GenesisSound();
    RunIsSound(Genesis, steps);
    CellFacts(Run(Genesis, steps), uid);
  }

  // ---------------------------------------------------------------- workflow atomicity

  /** The rows of one operation. */
  predicate OwnsKey(m: Mutation, key: Key) {
    key == ControlKey(m.control.version)
    || (m.newPayload && m.control.payload.Some? && key == PayloadKey(m.control.payload.value))
  }

  /** No operation has one row committed (READY, later DELETED) and another RETRYABLE. */
  lemma RowsNeverSplit(steps: seq<Step>, uid: Id, o: Id, a: Key, b: Key)
    requires uid in Run(Genesis, steps).cells && o in Run(Genesis, steps).cells[uid].ops
    requires MutationPrepared(Run(Genesis, steps).cells[uid].ops[o]).Some?
    requires OwnsKey(MutationPrepared(Run(Genesis, steps).cells[uid].ops[o]).value, a)
    requires OwnsKey(MutationPrepared(Run(Genesis, steps).cells[uid].ops[o]).value, b)
    ensures var c := Run(Genesis, steps).cells[uid];
            a in c.rows && b in c.rows && Settled(c.rows[a]) == Settled(c.rows[b]) == c.ops[o].Committed?
  {
    GenesisSound();
    RunIsSound(Genesis, steps);
    var w := Run(Genesis, steps);
    CellFacts(w, uid);
    assert OpOk(w.cells[uid], o, w.cells[uid].ops[o]);
  }

  /** The operation has a RETRYABLE row. */
  ghost predicate Doomed(c: Cell, o: Id, key: Key) {
    && o in c.ops && MutationPrepared(c.ops[o]).Some? && OwnsKey(MutationPrepared(c.ops[o]).value, key)
    && HasRow(c, key, Retryable)
  }

  /** Once recovery has marked a row of an operation, the operation never commits. */
  lemma {:induction false} MarkedNeverCommits(w: World, steps: seq<Step>, uid: Id, o: Id, key: Key)
    requires Sound(w) && uid in w.cells && Doomed(w.cells[uid], o, key)
    ensures var v := Run(w, steps);
            var m := MutationPrepared(w.cells[uid].ops[o]).value;
            && uid in v.cells && Doomed(v.cells[uid], o, key)
            && MutationPrepared(v.cells[uid].ops[o]) == Some(m)
            && (forall i :: 0 <= i < |v.cells[uid].log| ==> v.cells[uid].log[i].control.version != m.control.version)
            && (IsReady(v.cells[uid]) ==> v.cells[uid].head.value.control != m.control.version)
    decreases |steps|
  {
    hide CellsOk, NamesOk, IndexInv, Apply;
    if steps == [] {
      DoomedIsUncommitted(w, uid, o, key);
    } else {
      StepKeepsCells(w, steps[0]);
      StepKeepsIndex(w, steps[0]);
      StepKeepsDoom(w, steps[0], uid, o, key);
      MarkedNeverCommits(Apply(w, steps[0]), steps[1..], uid, o, key);
    }
  }

  lemma DoomedIsUncommitted(w: World, uid: Id, o: Id, key: Key)
    requires CellsOk(w) && uid in w.cells && Doomed(w.cells[uid], o, key)
    ensures var c := w.cells[uid];
            var m := MutationPrepared(c.ops[o]).value;
            && (forall i :: 0 <= i < |c.log| ==> c.log[i].control.version != m.control.version)
            && (IsReady(c) ==> c.head.value.control != m.control.version)
  {
    hide CellInv, CellsOk;
    CellFacts(w, uid);
    DoomedInCell(w.cells[uid], o, key, w.nextId);
  }

  lemma DoomedInCell(c: Cell, o: Id, key: Key, n: Id)
    requires CellInv(c, n) && Doomed(c, o, key)
    ensures var m := MutationPrepared(c.ops[o]).value;
            && (forall i :: 0 <= i < |c.log| ==> c.log[i].control.version != m.control.version)
            && (IsReady(c) ==> c.head.value.control != m.control.version)
  {
    assert OpOk(c, o, c.ops[o]);
    hide OpsOk, LeaseOk, JobsOk, ReadyHeadOk, MutationShape, ObjectsStored, FreshIds, ChainOk;
    var m := MutationPrepared(c.ops[o]).value;
    forall i | 0 <= i < |c.log| ensures c.log[i].control.version != m.control.version {
      assert SettledKey(c, ControlKey(c.log[i].control.version));
    }
  }

  lemma StepKeepsDoom(w: World, step: Step, uid: Id, o: Id, key: Key)
    requires CellsOk(w) && NamesOk(w) && uid in w.cells && Doomed(w.cells[uid], o, key)
    ensures uid in Apply(w, step).cells && Doomed(Apply(w, step).cells[uid], o, key)
    ensures MutationPrepared(Apply(w, step).cells[uid].ops[o]) == MutationPrepared(w.cells[uid].ops[o])
  {
    hide CellsOk, CellInv, NamesOk, Doomed, OwnsKey, Apply;
    CellFacts(w, uid);
    UidBelow(w, uid);
    DoomedIsPrepared(w.cells[uid], o, key);
    DoomedOwnsRow(w.cells[uid], o, key, w.nextId);
    if IsCellStep(step) { CellStepKeepsDoom(w, step, uid, o, key); } else { OtherKeepsDoom(w, step, uid, o, key); }
  }

  lemma CellStepKeepsDoom(w: World, step: Step, uid: Id, o: Id, key: Key)
    requires IsCellStep(step) && uid in w.cells && Doomed(w.cells[uid], o, key)
    ensures uid in Apply(w, step).cells && Doomed(Apply(w, step).cells[uid], o, key)
    ensures MutationPrepared(Apply(w, step).cells[uid].ops[o]) == MutationPrepared(w.cells[uid].ops[o])
  {
    hide Doomed, ClientCell, MaintenanceCell;
    DoomedIsPrepared(w.cells[uid], o, key);
    var u := step.uid;
    CellStepFrame(w, step);
    hide Apply, IsClientStep, IsMaintenanceStep;
    if u == uid {
      if IsClientStep(step) { ClientKeepsDoom(w, w.cells[uid], step, o, key); }
      else { MaintenanceKeepsDoom(w, w.cells[uid], step, o, key); }
    }
  }

  lemma DoomedOwnsRow(c: Cell, o: Id, key: Key, n: Id)
    requires CellInv(c, n) && Doomed(c, o, key)
    ensures c.rows[key].operation == o && !Settled(c.rows[key]) && (o < n)
    ensures forall x :: x in c.ops && x != o && MutationPrepared(c.ops[x]).Some? ==> !OwnsKey(MutationPrepared(c.ops[x]).value, key)
  {
    forall x | x in c.ops && x != o && MutationPrepared(c.ops[x]).Some?
      ensures !OwnsKey(MutationPrepared(c.ops[x]).value, key)
    {
      assert OpOk(c, x, c.ops[x]);
    }
    assert OpOk(c, o, c.ops[o]);
  }

  lemma ClientKeepsDoom(w: World, c: Cell, step: Step, o: Id, key: Key)
    requires IsClientStep(step) && Doomed(c, o, key)
    ensures Doomed(ClientCell(w, c, step), o, key)
    ensures MutationPrepared(ClientCell(w, c, step).ops[o]) == MutationPrepared(c.ops[o])
  {
    hide ClientCell, OwnsKey, Mover;
    ClientMovesLocals(w, c, step);
  }

  lemma MaintenanceKeepsDoom(w: World, c: Cell, step: Step, o: Id, key: Key)
    requires IsMaintenanceStep(step) && Doomed(c, o, key)
    ensures Doomed(MaintenanceCell(w, c, step), o, key)
    ensures MutationPrepared(MaintenanceCell(w, c, step).ops[o]) == MutationPrepared(c.ops[o])
  {
  }

  lemma OtherKeepsDoom(w: World, step: Step, uid: Id, o: Id, key: Key)
    requires NamesOk(w) && uid in w.cells && uid < w.nextId && Doomed(w.cells[uid], o, key)
    requires forall x :: x in w.cells[uid].ops && x != o && MutationPrepared(w.cells[uid].ops[x]).Some? ==>
                           !OwnsKey(MutationPrepared(w.cells[uid].ops[x]).value, key)
    requires !IsCellStep(step)
    ensures uid in Apply(w, step).cells && Doomed(Apply(w, step).cells[uid], o, key)
    ensures MutationPrepared(Apply(w, step).cells[uid].ops[o]) == MutationPrepared(w.cells[uid].ops[o])
  {
    hide CommitStep, PrepareStep, PublishBackfillStep, AbortStep, StartStep, StartCreateStep, StartByNameStep, Doomed, MutationPrepared;
    match step
    case CommitOp(u, x, lag) => CommitKeepsDoom(w, u, x, lag, uid, o, key);
    case PrepareOp(u, x, lag) => PrepareKeepsDoom(w, u, x, lag, uid, o, key);
    case PublishBackfill(u, x, lag) => BackfillKeepsDoom(w, u, x, lag, uid, o, key);
    case _ => RestKeepsDoom(w, step, uid, o, key);
  }

  lemma RestKeepsDoom(w: World, step: Step, uid: Id, o: Id, key: Key)
    requires NamesOk(w) && uid in w.cells && uid < w.nextId && Doomed(w.cells[uid], o, key)
    requires !IsCellStep(step) && !step.CommitOp? && !step.PrepareOp? && !step.PublishBackfill?
    ensures uid in Apply(w, step).cells && Doomed(Apply(w, step).cells[uid], o, key)
    ensures MutationPrepared(Apply(w, step).cells[uid].ops[o]) == MutationPrepared(w.cells[uid].ops[o])
  {
    hide CommitStep, PrepareStep, PublishBackfillStep, AbortStep, StartStep, Doomed, MutationPrepared;
    match step
    case StartByName(request) =>
      var found := LookupName(w, request.environment, request.secretId);
      if found.Some? { StartKeepsDoom(w, found.value, request, uid, o, key); }
    case StartByUid(u, request) => StartKeepsDoom(w, u, request, uid, o, key);
    case Abort(u, x) => AbortKeepsDoom(w, u, x, uid, o, key);
    case StartCreate(_) => DoomStays(w.cells[uid], w.cells[uid], o, key);
    case _ =>
  }

  lemma DoomStays(c: Cell, d: Cell, o: Id, key: Key)
    requires Doomed(c, o, key) && d == c
    ensures Doomed(d, o, key)
  {
  }

  lemma StartKeepsDoom(w: World, u: Id, request: Request, uid: Id, o: Id, key: Key)
    requires uid in w.cells && Doomed(w.cells[uid], o, key)
    ensures var v := StartStep(w, u, request);
            uid in v.cells && Doomed(v.cells[uid], o, key) && MutationPrepared(v.cells[uid].ops[o]) == MutationPrepared(w.cells[uid].ops[o])
  {
  }

  lemma AbortKeepsDoom(w: World, u: Id, x: Id, uid: Id, o: Id, key: Key)
    requires uid in w.cells && Doomed(w.cells[uid], o, key)
    ensures var v := AbortStep(w, u, x);
            uid in v.cells && Doomed(v.cells[uid], o, key) && MutationPrepared(v.cells[uid].ops[o]) == MutationPrepared(w.cells[uid].ops[o])
  {
    hide HasRetryable;
  }

  lemma UidBelow(w: World, uid: Id)
    requires CellsOk(w) && uid in w.cells
    ensures uid < w.nextId
  {
    hide CellInv;
  }

  lemma CommitKeepsDoom(w: World, u: Id, x: Id, lag: nat, uid: Id, o: Id, key: Key)
    requires uid in w.cells && Doomed(w.cells[uid], o, key)
    requires forall x :: x in w.cells[uid].ops && x != o && MutationPrepared(w.cells[uid].ops[x]).Some? ==>
                           !OwnsKey(MutationPrepared(w.cells[uid].ops[x]).value, key)
    ensures var v := CommitStep(w, u, x, lag);
            uid in v.cells && Doomed(v.cells[uid], o, key)
            && MutationPrepared(v.cells[uid].ops[o]) == MutationPrepared(w.cells[uid].ops[o])
  {
    hide Doomed, CommitAllowed, CommitMutation, AfterFailure, RowFree, CounterHolds, PublishRows;
    var c := CellOf(w, u);
    DoomedIsPrepared(w.cells[uid], o, key);
    if u in w.cells && x in c.ops && c.ops[x].Stored? && c.ops[x].stage.Primed? {
      var m, state, previous := c.ops[x].mutation, c.ops[x].stage.state, c.ops[x].stage.previous;
      var rest := CommitAllowed(c, x, m, Resolves(w, u), previous) && RowFree(w, u, m.control, state);
      PublishRowsFrame(w, u, m.control, state, previous, lag);
      if u == uid {
        if rest {
          DoomedCannotCommit(c, x, o, key, m, Resolves(w, u), previous);
          CommitCellKeepsDoom(c, x, m, NextSequence(state), w.now + RETENTION_MILLISECONDS, o, key);
        }
        FailureKeepsDoom(c, x, rest, o, key);
      }
    }
  }

  lemma DoomedIsPrepared(c: Cell, o: Id, key: Key)
    requires Doomed(c, o, key)
    ensures o in c.ops && MutationPrepared(c.ops[o]).Some?
  {
  }

  lemma DoomedCannotCommit(c: Cell, x: Id, o: Id, key: Key, m: Mutation, resolves: bool, previous: Option<nat>)
    requires Doomed(c, o, key) && x in c.ops && c.ops[x].Stored? && m == c.ops[x].mutation
    requires CommitAllowed(c, x, m, resolves, previous)
    ensures x != o && c.head.Some?
  {
    hide TransactionSize;
  }

  lemma FailureKeepsDoom(c: Cell, x: Id, contention: bool, o: Id, key: Key)
    requires Doomed(c, o, key) && x in c.ops && (c.ops[x].Stored? || c.ops[x].Backfilling?)
    ensures Doomed(AfterFailure(c, x, contention), o, key)
    ensures MutationPrepared(AfterFailure(c, x, contention).ops[o]) == MutationPrepared(c.ops[o])
  {
  }

  lemma CommitCellKeepsDoom(c: Cell, x: Id, m: Mutation, sequence: nat, due: nat, o: Id, key: Key)
    requires Doomed(c, o, key) && x != o && !OwnsKey(m, key) && c.head.Some?
    ensures Doomed(CommitMutation(c, x, m, sequence, due), o, key)
    ensures MutationPrepared(CommitMutation(c, x, m, sequence, due).ops[o]) == MutationPrepared(c.ops[o])
  {
    hide CommitHead, AccessProjectionChanged, AccessItems;
  }

  lemma PrepareKeepsDoom(w: World, u: Id, x: Id, lag: nat, uid: Id, o: Id, key: Key)
    requires uid in w.cells && Doomed(w.cells[uid], o, key)
    ensures var v := PrepareStep(w, u, x, lag);
            uid in v.cells && Doomed(v.cells[uid], o, key)
            && MutationPrepared(v.cells[uid].ops[o]) == MutationPrepared(w.cells[uid].ops[o])
  {
    hide Prepare, Doomed;
    var c := CellOf(w, u);
    DoomedIsPrepared(w.cells[uid], o, key);
    if u == uid {
      PrepareCellKeepsDoom(c, x, w.nextId, w.nextId + 1, NameKey(c) !in w.names, w.now,
                           w.now - (if lag <= w.now then lag else w.now) + LEASE_MILLISECONDS, o, key);
    }
  }

  lemma PrepareCellKeepsDoom(c: Cell, x: Id, version: Id, payload: Id, nameFree: bool, now: nat, expires: nat, o: Id, key: Key)
    requires Doomed(c, o, key)
    ensures var d := Prepare(c, x, version, payload, nameFree, now, expires);
            Doomed(d, o, key) && MutationPrepared(d.ops[o]) == MutationPrepared(c.ops[o])
  {
    hide NextControl, PrepareHead;
  }

  lemma BackfillKeepsDoom(w: World, u: Id, x: Id, lag: nat, uid: Id, o: Id, key: Key)
    requires uid in w.cells && Doomed(w.cells[uid], o, key)
    ensures var v := PublishBackfillStep(w, u, x, lag);
            uid in v.cells && Doomed(v.cells[uid], o, key)
            && MutationPrepared(v.cells[uid].ops[o]) == MutationPrepared(w.cells[uid].ops[o])
  {
    hide RowFree, CounterHolds, PublishRows;
    var c := CellOf(w, u);
    if u in w.cells && x in c.ops && c.ops[x].Backfilling? && c.ops[x].backfillStage.Primed? {
      PublishRowsFrame(w, u, c.ops[x].record, c.ops[x].backfillStage.state, c.ops[x].backfillStage.previous, lag);
    }
  }

  // ---------------------------------------------------------------- publication

  /**
   * At most one CHANGE row per secret, no sequence used twice, none above the counter, and each row is
   * exactly what the head's current revision publishes.
   */
  lemma PublicationIsAtomic(steps: seq<Step>, j: ChangeKey, k: ChangeKey)
    requires j in Run(Genesis, steps).changes && k in Run(Genesis, steps).changes
    requires j.environment == k.environment
    ensures var w := Run(Genesis, steps);
            && (j.uid == k.uid <==> j.sequence == k.sequence)
            && j.environment in w.sync && 1 <= j.sequence <= w.sync[j.environment].sequence
            && j.uid in w.cells && |w.cells[j.uid].log| > 0 && IsReady(w.cells[j.uid])
            && w.cells[j.uid].head.value.syncSequence == Some(j.sequence)
            && w.changes[j].record == SyncRecordOf(j.uid, CurrentControl(w.cells[j.uid]))
  {
    GenesisSound();
    RunIsSound(Genesis, steps);
    var w := Run(Genesis, steps);
    hide Run;
    RowFacts(w, j);
    RowFacts(w, k);
    hide CellsOk, NamesOk;
    assert j.uid != k.uid ==> Apart(w.cells[j.uid], w.cells[k.uid]);
  }

  /** A published secret that is not archived keeps its row. */
  lemma PublishedRowStays(steps: seq<Step>, uid: Id)
    requires uid in Run(Genesis, steps).cells && IsReady(Run(Genesis, steps).cells[uid])
    requires SequenceOf(Run(Genesis, steps).cells[uid]).Some?
    ensures var w := Run(Genesis, steps);
            var c := w.cells[uid];
            var key := ChangeKey(c.environment, SequenceOf(c).value, uid);
            |c.log| > 0 && (CurrentControl(c).state != Archived ==> key in w.changes && w.changes[key].record == SyncRecordOf(uid, CurrentControl(c)))
  {
    GenesisSound();
    RunIsSound(Genesis, steps);
    hide Run, CellsOk, NamesOk;
    assert PublishedOk(Run(Genesis, steps), uid, Run(Genesis, steps).cells[uid]);
  }

  lemma RowFacts(w: World, key: ChangeKey)
    requires Sound(w) && key in w.changes
    ensures RowOk(w, key, w.changes[key]) && IsReady(w.cells[key.uid])
    ensures PublishedOk(w, key.uid, w.cells[key.uid])
  {
    hide CellInv;
    CellFacts(w, key.uid);
    LogFacts(w.cells[key.uid], w.nextId);
  }

  lemma LogFacts(c: Cell, n: Id)
    requires CellInv(c, n)
    ensures LogOk(c)
  {
  }

  /** STATE and HEAD are read separately, yet a commit always removes exactly the row it replaces. */
  lemma CommitReplacesItsOwnRow(steps: seq<Step>, uid: Id, o: Id)
    requires uid in Run(Genesis, steps).cells && o in Run(Genesis, steps).cells[uid].ops
    requires var op := Run(Genesis, steps).cells[uid].ops[o]; Publishing(op) && StageOf(op).Primed?
    requires CounterHolds(Run(Genesis, steps), Run(Genesis, steps).cells[uid].environment,
                          StageOf(Run(Genesis, steps).cells[uid].ops[o]).state)
    ensures var w := Run(Genesis, steps);
            var stage := StageOf(w.cells[uid].ops[o]);
            && stage.previous == SequenceOf(w.cells[uid])
            && (forall key :: key in w.changes && key.uid == uid ==> Some(key.sequence) == stage.previous)
            && (forall key :: key in w.changes && key.environment == w.cells[uid].environment
                              ==> key.sequence < NextSequence(stage.state))
  {
    GenesisSound();
    RunIsSound(Genesis, steps);
    var w := Run(Genesis, steps);
    hide Run, CellInv;
    StageOfOp(w, uid, o);
    forall key | key in w.changes
      ensures RowOk(w, key, w.changes[key]) && PublishedOk(w, key.uid, w.cells[key.uid])
    {
      RowFacts(w, key);
    }
  }

  // ---------------------------------------------------------------- access and names

  /** The checks of `SecretService.read`: the access row and the head, read together after the name. */
  predicate ReadAllowed(w: World, resolved: Option<Id>, consumer: Id, environment: Name, secretId: Name) {
    resolved.Some? && resolved.value in w.cells &&
    var c := w.cells[resolved.value];
    && consumer in c.access
    && c.access[consumer].environment == environment && c.access[consumer].secretId == secretId
    && Readable(c.access[consumer])
    && c.head.Some? && c.environment == c.access[consumer].environment && c.secretId == secretId
    && c.head.value.state == Active
  }

  /** Cells are never removed, and keep their identity. */
  lemma {:induction false} CellsPersist(w: World, steps: seq<Step>, uid: Id)
    requires CellsOk(w) && NamesOk(w) && uid in w.cells
    ensures uid in Run(w, steps).cells && NameKey(Run(w, steps).cells[uid]) == NameKey(w.cells[uid])
    decreases |steps|
  {
    hide CellsOk, NamesOk, Apply;
    if steps != [] {
      StepKeepsCells(w, steps[0]);
      UidBelow(w, uid);
      CellPersists(w, steps[0], uid);
      CellsPersist(Apply(w, steps[0]), steps[1..], uid);
    }
  }

  lemma CellPersists(w: World, step: Step, uid: Id)
    requires uid in w.cells && uid < w.nextId
    ensures uid in Apply(w, step).cells && NameKey(Apply(w, step).cells[uid]) == NameKey(w.cells[uid])
  {
    hide NameKey, ClientCell, MaintenanceCell, PrepareStep, CommitStep, PublishBackfillStep, AbortStep, StartStep, StartCreateStep, StartByNameStep;
    if IsClientStep(step) {
      ClientCellName(w, CellOf(w, step.uid), step);
    } else if IsMaintenanceStep(step) {
      MaintenanceCellName(w, CellOf(w, step.uid), step);
    } else {
      match step
      case PrepareOp(u, o, lag) => PreparePersists(w, u, o, lag, uid);
      case CommitOp(u, o, lag) => CommitPersists(w, u, o, lag, uid);
      case PublishBackfill(u, o, lag) => BackfillPersists(w, u, o, lag, uid);
      case _ => OtherPersists(w, step, uid);
    }
  }

  lemma OtherPersists(w: World, step: Step, uid: Id)
    requires uid in w.cells && uid < w.nextId
    requires !IsCellStep(step) && !step.PrepareOp? && !step.CommitOp? && !step.PublishBackfill?
    ensures uid in Apply(w, step).cells && NameKey(Apply(w, step).cells[uid]) == NameKey(w.cells[uid])
  {
    hide HasRetryable, PrepareStep, CommitStep, PublishBackfillStep;
  }

  lemma PreparePersists(w: World, u: Id, o: Id, lag: nat, uid: Id)
    requires uid in w.cells
    ensures uid in PrepareStep(w, u, o, lag).cells && NameKey(PrepareStep(w, u, o, lag).cells[uid]) == NameKey(w.cells[uid])
  {
    hide Prepare;
    var c := CellOf(w, u);
    PrepareFrame(c, o, w.nextId, w.nextId + 1, NameKey(c) !in w.names, w.now,
                 w.now - (if lag <= w.now then lag else w.now) + LEASE_MILLISECONDS);
  }

  lemma CommitPersists(w: World, u: Id, o: Id, lag: nat, uid: Id)
    requires uid in w.cells
    ensures uid in CommitStep(w, u, o, lag).cells && NameKey(CommitStep(w, u, o, lag).cells[uid]) == NameKey(w.cells[uid])
  {
    hide CommitAllowed, CommitMutation, PublishRows, RowFree, CounterHolds, AfterFailure, NameKey, Resolves;
    var c := CellOf(w, u);
    if u in w.cells && o in c.ops && c.ops[o].Stored? && c.ops[o].stage.Primed? {
      var m, state, previous := c.ops[o].mutation, c.ops[o].stage.state, c.ops[o].stage.previous;
      PublishRowsFrame(w, u, m.control, state, previous, lag);
      FailureName(c, o, CommitAllowed(c, o, m, Resolves(w, u), previous) && RowFree(w, u, m.control, state));
      if CommitAllowed(c, o, m, Resolves(w, u), previous) {
        CommitFrame(c, o, m, Resolves(w, u), previous, NextSequence(state), w.now + RETENTION_MILLISECONDS);
      }
    }
  }

  lemma BackfillPersists(w: World, u: Id, o: Id, lag: nat, uid: Id)
    requires uid in w.cells
    ensures uid in PublishBackfillStep(w, u, o, lag).cells
    ensures NameKey(PublishBackfillStep(w, u, o, lag).cells[uid]) == NameKey(w.cells[uid])
  {
    hide PublishRows;
    var c := CellOf(w, u);
    if u in w.cells && o in c.ops && c.ops[o].Backfilling? && c.ops[o].backfillStage.Primed? {
      PublishRowsFrame(w, u, c.ops[o].record, c.ops[o].backfillStage.state, c.ops[o].backfillStage.previous, lag);
    }
  }
}
