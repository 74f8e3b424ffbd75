/** How the index of one environment can change between two moments of one run. */
module SyncIndex {
  import opened Domain
  import opened Revisions
  import opened RevisionInvariants
  import opened ControlPlane
  import opened ControlPlaneInvariants
  import opened IndexInvariants
  import opened NameInvariants
  import opened ControlPlaneTheorems

  const ARCHIVE_LIFETIME: nat := ARCHIVE_LIFETIME_SECONDS * 1000

  function CounterOf(w: World, environment: Name): nat {
    if environment in w.sync then w.sync[environment].sequence else 0
  }

  function StepLag(step: Step): nat {
    if step.CommitOp? || step.PublishBackfill? then step.lag else 0
  }

  /** The largest commit delay and clock error of the run's publications. */
  function MaxLag(steps: seq<Step>): nat
    decreases |steps|
  {
    if steps == [] then 0
    else if StepLag(steps[0]) >= MaxLag(steps[1..]) then StepLag(steps[0]) else MaxLag(steps[1..])
  }

  predicate Archives(c: Cell) {
    |c.log| > 0 && CurrentControl(c).state == Archived
  }

  /** A row that has been replaced by a later publication of the same secret. */
  predicate Superseded(v: World, key: ChangeKey) {
    key.uid in v.cells && SequenceOf(v.cells[key.uid]).Some? && key.sequence < SequenceOf(v.cells[key.uid]).value
  }

  predicate Expired(row: ChangeRow, now: nat) {
    row.ttl.Some? && row.ttl.value * 1000 <= now
  }

  /** Time, epoch and counter only move forward. */
  ghost predicate CounterEvolves(w: World, v: World, environment: Name) {
    && w.now <= v.now
    && (environment in w.sync ==>
          environment in v.sync && v.sync[environment].epoch == w.sync[environment].epoch
          && (w.sync[environment].ready ==> v.sync[environment].ready))
    && CounterOf(w, environment) <= CounterOf(v, environment)
  }

  /** Rows at or below the earlier counter are earlier rows. */
  ghost predicate NoRowsAppear(w: World, v: World, environment: Name) {
    forall key :: key in v.changes && key.environment == environment && key.sequence <= CounterOf(w, environment) ==>
      key in w.changes && w.changes[key] == v.changes[key]
  }

  /** An earlier row goes only when its secret is published again or its TTL has passed. */
  ghost predicate RowsPersist(w: World, v: World, environment: Name) {
    forall key :: key in w.changes && key.environment == environment ==>
      (key in v.changes && v.changes[key] == w.changes[key]) || Superseded(v, key) || Expired(w.changes[key], v.now)
  }

  /** A later archived row keeps its eight days, less the delay between its writer's clock and its commit. */
  ghost predicate NewRowsLast(w: World, v: World, environment: Name, lag: nat) {
    forall key :: key in v.changes && key.environment == environment && key.sequence > CounterOf(w, environment)
                  && v.changes[key].ttl.Some? ==>
      v.changes[key].ttl.value * 1000 + lag >= w.now + ARCHIVE_LIFETIME
  }

  ghost predicate RowsEvolve(w: World, v: World, environment: Name, lag: nat) {
    NoRowsAppear(w, v, environment) && RowsPersist(w, v, environment) && NewRowsLast(w, v, environment, lag)
  }

  /** A secret's sequence only grows, and to a number above the earlier counter. */
  ghost predicate SecretEvolves(w: World, v: World, environment: Name, lag: nat, uid: Id)
    requires uid in v.cells
  {
    var d := v.cells[uid];
    && (uid in w.cells ==> d.environment == w.cells[uid].environment
                           && (SequenceOf(w.cells[uid]).Some? ==>
                                 SequenceOf(d).Some? && SequenceOf(w.cells[uid]).value <= SequenceOf(d).value))
    && (SequenceOf(d).Some? && d.environment == environment ==>
          if SequenceOf(d).value <= CounterOf(w, environment) then
            uid in w.cells && SequenceOf(w.cells[uid]) == SequenceOf(d) && w.cells[uid].log == d.log
          else
            Archives(d) ==> ChangeKey(environment, SequenceOf(d).value, uid) in v.changes
                            || v.now + lag >= w.now + ARCHIVE_LIFETIME)
  }

  ghost predicate SecretsEvolve(w: World, v: World, environment: Name, lag: nat) {
    && w.cells.Keys <= v.cells.Keys
    && (forall uid :: uid in v.cells ==> SecretEvolves(w, v, environment, lag, uid))
  }

  ghost predicate Evolves(w: World, v: World, environment: Name, lag: nat) {
    CounterEvolves(w, v, environment) && RowsEvolve(w, v, environment, lag) && SecretsEvolve(w, v, environment, lag)
  }

  // ---------------------------------------------------------------- reflexive and transitive

  /** What the invariant says about one environment. */
  ghost predicate IndexFacts(w: World, environment: Name) {
    && (forall key :: key in w.changes ==> RowOk(w, key, w.changes[key]) && key.sequence <= CounterOf(w, key.environment))
    && (forall uid :: uid in w.cells ==> PublishedOk(w, uid, w.cells[uid]))
  }

  lemma SoundFacts(w: World, environment: Name)
    requires Sound(w)
    ensures IndexFacts(w, environment)
  {
    hide CellInv;
    forall key | key in w.changes ensures RowOk(w, key, w.changes[key]) && key.sequence <= CounterOf(w, key.environment) {
      RowFacts(w, key);
    }
  }

  lemma EvolvesReflexive(w: World, environment: Name, lag: nat)
    requires IndexFacts(w, environment)
    ensures Evolves(w, w, environment, lag)
  {
  }

  lemma EvolvesTransitive(w: World, v: World, x: World, environment: Name, lag: nat)
    requires Evolves(w, v, environment, lag) && Evolves(v, x, environment, lag)
    ensures Evolves(w, x, environment, lag)
  {
    hide SecretEvolves;
    RowsTransitive(w, v, x, environment, lag);
    forall uid | uid in x.cells ensures SecretEvolves(w, x, environment, lag, uid) {
      SecretTransitive(w, v, x, environment, lag, uid);
    }
  }

  lemma RowsTransitive(w: World, v: World, x: World, environment: Name, lag: nat)
    requires Evolves(w, v, environment, lag) && Evolves(v, x, environment, lag)
    ensures RowsEvolve(w, x, environment, lag)
  {
    forall key | key in w.changes && key.environment == environment
      ensures (key in x.changes && x.changes[key] == w.changes[key]) || Superseded(x, key) || Expired(w.changes[key], x.now)
    {
      if Superseded(v, key) { assert SecretEvolves(v, x, environment, lag, key.uid); }
    }
  }

  lemma SecretTransitive(w: World, v: World, x: World, environment: Name, lag: nat, uid: Id)
    requires Evolves(w, v, environment, lag) && Evolves(v, x, environment, lag) && uid in x.cells
    ensures SecretEvolves(w, x, environment, lag, uid)
  {
    assert SecretEvolves(v, x, environment, lag, uid);
    if uid in v.cells {
      assert SecretEvolves(w, v, environment, lag, uid);
      if SequenceOf(x.cells[uid]).Some? && x.cells[uid].environment == environment {
        var key := ChangeKey(environment, SequenceOf(x.cells[uid]).value, uid);
        if key in v.changes && key !in x.changes {
          assert Superseded(x, key) || Expired(v.changes[key], x.now);
        }
      }
    }
  }

  // ---------------------------------------------------------------- every step evolves the index

  /** A step that leaves STATE, CHANGE rows, sequences and logs alone. */
  ghost predicate IndexSame(w: World, v: World) {
    && w.now <= v.now && v.changes == w.changes
    && v.sync == w.sync
    && w.cells.Keys <= v.cells.Keys
    && (forall uid :: uid in w.cells ==> v.cells[uid].environment == w.cells[uid].environment
                                         && SequenceOf(v.cells[uid]) == SequenceOf(w.cells[uid]) && v.cells[uid].log == w.cells[uid].log)
    && (forall uid :: uid in v.cells && uid !in w.cells ==> SequenceOf(v.cells[uid]).None?)
  }

  lemma SameEvolves(w: World, v: World, environment: Name, lag: nat)
    requires IndexFacts(w, environment) && IndexSame(w, v)
    ensures Evolves(w, v, environment, lag)
  {
    forall uid | uid in v.cells ensures SecretEvolves(w, v, environment, lag, uid) {
      assert uid in w.cells ==> PublishedOk(w, uid, w.cells[uid]);
    }
  }

  lemma PublishEvolves(w: World, v: World, uid: Id, control: Control, state: Option<SyncState>,
                       previous: Option<nat>, lag: nat, environment: Name)
    requires IndexFacts(w, environment) && Publishes(w, v, uid, control, state, previous, lag) && v.now == w.now
    ensures Evolves(w, v, environment, lag)
  {
    hide IndexFacts, Publishes, SecretEvolves;
    PublishEvolvesCounter(w, v, uid, control, state, previous, lag, environment);
    PublishAddsRow(w, v, uid, control, state, previous, lag, environment);
    PublishKeepsOthers(w, v, uid, control, state, previous, lag, environment);
    forall u | u in v.cells ensures SecretEvolves(w, v, environment, lag, u) {
      PublishEvolvesSecret(w, v, uid, control, state, previous, lag, environment, u);
    }
  }

  lemma PublishEvolvesCounter(w: World, v: World, uid: Id, control: Control, state: Option<SyncState>,
                              previous: Option<nat>, lag: nat, environment: Name)
    requires Publishes(w, v, uid, control, state, previous, lag) && v.now == w.now
    ensures CounterEvolves(w, v, environment) && w.cells.Keys <= v.cells.Keys
  {
    hide StagesOk, CurrentControl;
  }

  lemma PublishAddsRow(w: World, v: World, uid: Id, control: Control, state: Option<SyncState>,
                       previous: Option<nat>, lag: nat, environment: Name)
    requires IndexFacts(w, environment) && Publishes(w, v, uid, control, state, previous, lag)
    ensures NoRowsAppear(w, v, environment) && NewRowsLast(w, v, environment, lag)
  {
    hide RowOk, PublishedOk, CurrentControl, SyncRecordOf, Readers;
    var added := ChangeKey(control.environment, NextSequence(state), uid);
    forall key | key in v.changes && key != added ensures key in w.changes && v.changes[key] == w.changes[key] {
    }
    assert CounterOf(w, control.environment) < NextSequence(state);
  }

  lemma PublishKeepsOthers(w: World, v: World, uid: Id, control: Control, state: Option<SyncState>,
                           previous: Option<nat>, lag: nat, environment: Name)
    requires IndexFacts(w, environment) && Publishes(w, v, uid, control, state, previous, lag)
    ensures RowsPersist(w, v, environment)
  {
    hide RowOk, CurrentControl, SyncRecordOf, Readers;
    assert PublishedOk(w, uid, w.cells[uid]);
    forall key | key in w.changes && key.environment == environment
      ensures (key in v.changes && v.changes[key] == w.changes[key]) || Superseded(v, key)
    {
      assert key.sequence <= CounterOf(w, key.environment);
    }
  }

  lemma PublishEvolvesSecret(w: World, v: World, uid: Id, control: Control, state: Option<SyncState>,
                             previous: Option<nat>, lag: nat, environment: Name, u: Id)
    requires IndexFacts(w, environment) && Publishes(w, v, uid, control, state, previous, lag) && u in v.cells
    ensures SecretEvolves(w, v, environment, lag, u)
  {
    assert PublishedOk(w, u, w.cells[u]);
  }

  lemma EvolvesWeaken(w: World, v: World, environment: Name, lag: nat, more: nat)
    requires Evolves(w, v, environment, lag) && lag <= more
    ensures Evolves(w, v, environment, more)
  {
    forall uid | uid in v.cells ensures SecretEvolves(w, v, environment, more, uid) {
      assert SecretEvolves(w, v, environment, lag, uid);
    }
  }

  lemma CellStepSame(w: World, step: Step)
    requires IndexInv(w) && IsCellStep(step)
    ensures IndexSame(w, Apply(w, step))
  {
    hide IndexInv, Apply, CellResult, QuietCell;
    var uid := step.uid;
    hide IsClientStep, IsMaintenanceStep;
    CellStepFrame(w, step);
    if uid in w.cells {
      CellStepIsQuiet(w, step);
      QuietIsSame(w, w.cells[uid], CellResult(w, w.cells[uid], step));
    }
  }

  lemma CellStepIsQuiet(w: World, step: Step)
    requires IndexInv(w) && IsCellStep(step) && step.uid in w.cells
    ensures QuietCell(w, w.cells[step.uid], CellResult(w, w.cells[step.uid], step))
  {
    hide IndexInv, QuietCell, ClientCell, MaintenanceCell, StagesOk;
    StagesOfCell(w, step.uid);
    hide IsClientStep, IsMaintenanceStep;
    if IsClientStep(step) { ClientCellIsQuiet(w, w.cells[step.uid], step); }
    else { MaintenanceCellIsQuiet(w, w.cells[step.uid], step); }
  }

  lemma QuietIsSame(w: World, c: Cell, d: Cell)
    requires QuietCell(w, c, d)
    ensures d.environment == c.environment && d.log == c.log && SequenceOf(d) == SequenceOf(c)
  {
  }

  lemma PrepareSame(w: World, uid: Id, o: Id, lag: nat)
    requires IndexInv(w)
    ensures IndexSame(w, PrepareStep(w, uid, o, lag))
  {
    hide IndexInv, Prepare, StagesOk;
    if uid in w.cells {
      var c := w.cells[uid];
      var expires := w.now - (if lag <= w.now then lag else w.now) + LEASE_MILLISECONDS;
      StagesOfCell(w, uid);
      PrepareIsQuiet(w, c, o, w.nextId, w.nextId + 1, NameKey(c) !in w.names, w.now, expires);
    }
  }

  lemma AbortSame(w: World, uid: Id, o: Id)
    requires CellsOk(w) && IndexInv(w)
    ensures IndexSame(w, AbortStep(w, uid, o))
  {
    hide IndexInv, CellInv, AbortCreate, StagesOk, HeadOk;
    if uid in w.cells && AbortAllowed(w.cells[uid], o, Resolves(w, uid)) {
      StagesOfCell(w, uid);
      HeadOfCell(w, uid);
      AbortIsQuiet(w, w.cells[uid], o, Resolves(w, uid));
    }
  }

  lemma NoStepSame(w: World)
    ensures IndexSame(w, w)
  {
  }

  lemma FailureSame(w: World, uid: Id, o: Id, contention: bool)
    requires IndexInv(w) && uid in w.cells && o in w.cells[uid].ops && Publishing(w.cells[uid].ops[o])
    ensures IndexSame(w, OnCell(w, uid, AfterFailure(w.cells[uid], o, contention)))
  {
    hide IndexInv, StagesOk, AfterFailure;
    StagesOfCell(w, uid);
    FailureIsQuiet(w, w.cells[uid], o, contention);
  }

  lemma CommitEvolves(w: World, uid: Id, o: Id, lag: nat, environment: Name)
    requires CellsOk(w) && IndexInv(w) && IndexFacts(w, environment)
    ensures Evolves(w, CommitStep(w, uid, o, lag), environment, lag)
  {
    hide CellInv, CommitMutation, CommitAllowed, PublishRows, IndexInv, AfterFailure, RowFree, StageOk, StagesOk, IndexFacts,
         Evolves, IndexSame, Publishes;
    var v, c := CommitStep(w, uid, o, lag), CellOf(w, uid);
    if uid in w.cells && o in c.ops && c.ops[o].Stored? && c.ops[o].stage.Primed? {
      var m, state, previous := c.ops[o].mutation, c.ops[o].stage.state, c.ops[o].stage.previous;
      if CounterHolds(w, m.control.environment, state)
         && CommitAllowed(c, o, m, Resolves(w, uid), previous) && RowFree(w, uid, m.control, state) {
        CommitPublishes(w, uid, o, lag);
        PublishEvolves(w, v, uid, m.control, state, previous, lag, environment);
      } else {
        FailureSame(w, uid, o, CommitAllowed(c, o, m, Resolves(w, uid), previous) && RowFree(w, uid, m.control, state));
        SameEvolves(w, v, environment, lag);
      }
    } else {
      NoStepSame(w);
      SameEvolves(w, v, environment, lag);
    }
  }

  lemma BackfillEvolves(w: World, uid: Id, o: Id, lag: nat, environment: Name)
    requires CellsOk(w) && IndexInv(w) && IndexFacts(w, environment)
    ensures Evolves(w, PublishBackfillStep(w, uid, o, lag), environment, lag)
  {
    hide CellInv, PublishRows, IndexInv, CommitBackfill, AfterFailure, RowFree, StageOk, StagesOk, IndexFacts, Evolves,
         IndexSame, Publishes;
    var v, c := PublishBackfillStep(w, uid, o, lag), CellOf(w, uid);
    if uid in w.cells && o in c.ops && c.ops[o].Backfilling? && c.ops[o].backfillStage.Primed? {
      var record, state, previous := c.ops[o].record, c.ops[o].backfillStage.state, c.ops[o].backfillStage.previous;
      if CounterHolds(w, record.environment, state) && BackfillAllowed(c, record) && RowFree(w, uid, record, state) {
        BackfillPublishes(w, uid, o, lag);
        PublishEvolves(w, v, uid, record, state, previous, lag, environment);
      } else {
        FailureSame(w, uid, o, BackfillAllowed(c, record) && RowFree(w, uid, record, state));
        SameEvolves(w, v, environment, lag);
      }
    } else {
      NoStepSame(w);
      SameEvolves(w, v, environment, lag);
    }
  }

  /** TTL deletion, and the items that only touch STATE. */
  lemma TableStepEvolves(w: World, step: Step, environment: Name, lag: nat)
    requires IndexFacts(w, environment) && (step.Expire? || step.CreateState? || step.MarkReady?)
    ensures Evolves(w, Apply(w, step), environment, lag)
  {
    hide RowOk;
    var v := Apply(w, step);
    assert v.cells == w.cells && w.now == v.now;
    SameCellsEvolve(w, v, environment, lag);
    hide SecretEvolves, PublishedOk;
    TableRows(w, step, environment, lag);
  }

  lemma SameCellsEvolve(w: World, v: World, environment: Name, lag: nat)
    requires IndexFacts(w, environment) && v.cells == w.cells
    ensures SecretsEvolve(w, v, environment, lag)
  {
    hide RowOk;
    forall uid | uid in v.cells ensures SecretEvolves(w, v, environment, lag, uid) {
      assert PublishedOk(w, uid, w.cells[uid]);
    }
  }

  lemma TableStepFrame(w: World, step: Step)
    requires step.Expire? || step.CreateState? || step.MarkReady?
    ensures var v := Apply(w, step);
            && v.now == w.now && v.cells == w.cells
            && (v.changes == w.changes || (step.Expire? && step.row in w.changes && Expired(w.changes[step.row], w.now)
                                           && v.changes == w.changes - {step.row}))
            && (forall e :: e in w.sync ==> e in v.sync && v.sync[e].epoch == w.sync[e].epoch
                                            && v.sync[e].sequence == w.sync[e].sequence && (w.sync[e].ready ==> v.sync[e].ready))
  {
  }

  lemma TableRows(w: World, step: Step, environment: Name, lag: nat)
    requires IndexFacts(w, environment) && (step.Expire? || step.CreateState? || step.MarkReady?)
    ensures CounterEvolves(w, Apply(w, step), environment) && RowsEvolve(w, Apply(w, step), environment, lag)
  {
    hide RowOk, PublishedOk, IsCellStep, CommitStep, PublishBackfillStep, PrepareStep, AbortStep, StartStep, StartCreateStep, StartByNameStep;
    TableStepFrame(w, step);
    hide Apply;
    var v := Apply(w, step);
    hide RowsEvolve;
    RowsExpire(w, v, step, environment, lag);
  }

  lemma RowsExpire(w: World, v: World, step: Step, environment: Name, lag: nat)
    requires IndexFacts(w, environment) && v.now == w.now
    requires v.changes == w.changes || (step.Expire? && step.row in w.changes && Expired(w.changes[step.row], w.now)
                                        && v.changes == w.changes - {step.row})
    ensures RowsEvolve(w, v, environment, lag)
  {
    hide RowOk, PublishedOk, Expired;
    assert forall key :: key in w.changes && key !in v.changes ==> Expired(w.changes[key], v.now);
  }

  lemma StartSame(w: World, step: Step)
    requires step.Tick? || step.StartByName? || step.StartByUid? || (step.StartCreate? && w.nextId !in w.cells)
    ensures IndexSame(w, Apply(w, step))
  {
    assert !IsCellStep(step);
    hide StartStep, IsCellStep, CommitStep, PrepareStep, PublishBackfillStep, AbortStep;
    if step.StartCreate? || step.Tick? {
    } else if step.StartByName? {
      var found := LookupName(w, step.request.environment, step.request.secretId);
      if found.Some? { BeginSame(w, found.value, step.request); }
    } else {
      BeginSame(w, step.uid, step.request);
    }
  }

  lemma BeginSame(w: World, uid: Id, request: Request)
    ensures IndexSame(w, StartStep(w, uid, request))
  {
    hide SequenceOf;
    BeginFrame(CellOf(w, uid), w.nextId, request);
    hide Begin;
  }

  lemma BeginFrame(c: Cell, o: Id, request: Request)
    ensures var d := Begin(c, o, request);
            d.environment == c.environment && d.log == c.log && d.head == c.head && SequenceOf(d) == SequenceOf(c)
  {
  }

  lemma NextIdIsNew(w: World)
    requires CellsOk(w)
    ensures w.nextId !in w.cells
  {
    hide CellInv;
  }

  lemma StepEvolves(w: World, step: Step, environment: Name, lag: nat)
    requires Sound(w) && StepLag(step) <= lag
    ensures Evolves(w, Apply(w, step), environment, lag)
  {
    hide CellsOk, CellInv, IndexInv, NamesOk, IndexFacts, Evolves, IndexSame, CommitStep, PublishBackfillStep, PrepareStep, AbortStep,
         CellResult, StartCreateStep, StartByNameStep, StartStep, OnCell;
    SoundFacts(w, environment);
    var v := Apply(w, step);
    match step
    case CommitOp(uid, o, l) =>
      CommitEvolves(w, uid, o, l, environment);
      EvolvesWeaken(w, v, environment, l, lag);
    case PublishBackfill(uid, o, l) =>
      BackfillEvolves(w, uid, o, l, environment);
      EvolvesWeaken(w, v, environment, l, lag);
    case PrepareOp(uid, o, l) => PrepareSame(w, uid, o, l); SameEvolves(w, v, environment, lag);
    case Abort(uid, o) => AbortSame(w, uid, o); SameEvolves(w, v, environment, lag);
    case Expire(_) => TableStepEvolves(w, step, environment, lag);
    case CreateState(_) => TableStepEvolves(w, step, environment, lag);
    case MarkReady(_) => TableStepEvolves(w, step, environment, lag);
    case _ =>
      if IsCellStep(step) { CellStepSame(w, step); }
      else { NextIdIsNew(w); StartSame(w, step); }
      SameEvolves(w, v, environment, lag);
  }

  /** Between any two moments of a run the index has only moved forward. */
  lemma {:induction false} RunEvolves(w: World, steps: seq<Step>, environment: Name, lag: nat)
    requires Sound(w) && MaxLag(steps) <= lag
    ensures Evolves(w, Run(w, steps), environment, lag) && Sound(Run(w, steps))
    decreases |steps|
  {
    hide Sound, IndexFacts, Evolves, Apply;
    SoundFacts(w, environment);
    if steps == [] {
      EvolvesReflexive(w, environment, lag);
    } else {
      var v := Apply(w, steps[0]);
      StepEvolves(w, steps[0], environment, lag);
      StepIsSound(w, steps[0]);
      RunEvolves(v, steps[1..], environment, lag);
      EvolvesTransitive(w, v, Run(w, steps), environment, lag);
    }
  }

  lemma StepIsSound(w: World, step: Step)
    requires Sound(w)
    ensures Sound(Apply(w, step))
  {
    hide CellsOk, NamesOk, IndexInv, Apply;
    StepKeepsCells(w, step);
    StepKeepsIndex(w, step);
  }
}
