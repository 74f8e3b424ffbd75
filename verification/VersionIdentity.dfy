/** A revision id belongs to one revision of one secret, in every run. */
module VersionIdentity {
  import opened Domain
  import opened Revisions
  import opened RevisionInvariants
  import opened AccessInvariants
  import opened ControlPlane
  import opened ControlPlaneInvariants
  import opened IndexInvariants
  import opened NameInvariants
  import opened ControlPlaneTheorems
  import opened SyncIndex

  /** No workflow row key is used by two secrets. */
  ghost predicate KeysApart(w: World) {
    forall u, v, key :: u in w.cells && v in w.cells && u != v && key in w.cells[u].rows ==> key !in w.cells[v].rows
  }

  // ---------------------------------------------------------------- where rows come from

  lemma ClientRows(w: World, c: Cell, step: Step)
    requires IsClientStep(step)
    ensures ClientCell(w, c, step).rows == c.rows
  {
    hide ResolvedName, FetchedRow;
  }

  lemma MaintenanceRows(w: World, c: Cell, step: Step)
    requires IsMaintenanceStep(step)
    ensures MaintenanceCell(w, c, step).rows.Keys == c.rows.Keys
  {
  }

  /** A prepared mutation's rows carry the ids drawn for it. */
  lemma PrepareRows(c: Cell, o: Id, version: Id, payload: Id, nameFree: bool, now: nat, expires: nat, key: Key)
    ensures key in Prepare(c, o, version, payload, nameFree, now, expires).rows ==>
              key in c.rows || key == ControlKey(version) || key == PayloadKey(payload)
  {
    hide PrepareAllowed, PrepareHead;
  }

  lemma CommittedRows(w: World, u: Id, o: Id, lag: nat, uid: Id)
    requires uid in CommitStep(w, u, o, lag).cells
    ensures uid in w.cells && CommitStep(w, u, o, lag).cells[uid].rows.Keys == w.cells[uid].rows.Keys
  {
    hide CommitAllowed, RowFree, CounterHolds, PublishRows, AccessProjectionChanged, AccessItems, CommitHead;
    var c := CellOf(w, u);
    if u in w.cells && o in c.ops && c.ops[o].Stored? && c.ops[o].stage.Primed? {
      PublishRowsFrame(w, u, c.ops[o].mutation.control, c.ops[o].stage.state, c.ops[o].stage.previous, lag);
    }
  }

  lemma BackfillRows(w: World, u: Id, o: Id, lag: nat, uid: Id)
    requires uid in PublishBackfillStep(w, u, o, lag).cells
    ensures uid in w.cells && PublishBackfillStep(w, u, o, lag).cells[uid].rows == w.cells[uid].rows
  {
    hide RowFree, CounterHolds, PublishRows;
    var c := CellOf(w, u);
    if u in w.cells && o in c.ops && c.ops[o].Backfilling? && c.ops[o].backfillStage.Primed? {
      PublishRowsFrame(w, u, c.ops[o].record, c.ops[o].backfillStage.state, c.ops[o].backfillStage.previous, lag);
    }
  }

  lemma OtherRows(w: World, step: Step, uid: Id)
    requires !IsCellStep(step) && !step.PrepareOp? && !step.CommitOp? && !step.PublishBackfill?
    requires uid in Apply(w, step).cells
    ensures uid in w.cells || Apply(w, step).cells[uid].rows == map[]
    ensures uid in w.cells ==> Apply(w, step).cells[uid].rows == w.cells[uid].rows || Apply(w, step).cells[uid].rows == map[]
  {
    hide PrepareStep, CommitStep, PublishBackfillStep, HasRetryable;
  }

  /** A row was there before the step, or the step prepared it for this secret under an id just drawn. */
  lemma RowsOfStep(w: World, step: Step, uid: Id, key: Key)
    requires uid in Apply(w, step).cells && key in Apply(w, step).cells[uid].rows
    ensures (uid in w.cells && key in w.cells[uid].rows)
            || (step.PrepareOp? && step.uid == uid && key.version >= w.nextId)
  {
    hide ClientCell, MaintenanceCell, PrepareStep, CommitStep, PublishBackfillStep;
    if IsCellStep(step) {
      CellStepFrame(w, step);
      if IsClientStep(step) { ClientRows(w, CellOf(w, step.uid), step); } else { MaintenanceRows(w, CellOf(w, step.uid), step); }
    } else {
      match step
      case PrepareOp(u, o, lag) => PreparedRows(w, u, o, lag, uid, key);
      case CommitOp(u, o, lag) => CommittedRows(w, u, o, lag, uid);
      case PublishBackfill(u, o, lag) => BackfillRows(w, u, o, lag, uid);
      case _ => OtherRows(w, step, uid);
    }
  }

  lemma PreparedRows(w: World, u: Id, o: Id, lag: nat, uid: Id, key: Key)
    requires uid in PrepareStep(w, u, o, lag).cells && key in PrepareStep(w, u, o, lag).cells[uid].rows
    ensures uid in w.cells && (key in w.cells[uid].rows || (u == uid && key.version >= w.nextId))
  {
    hide Prepare;
    PrepareRows(CellOf(w, u), o, w.nextId, w.nextId + 1, NameKey(CellOf(w, u)) !in w.names, w.now,
                w.now - (if lag <= w.now then lag else w.now) + LEASE_MILLISECONDS, key);
  }

  // ---------------------------------------------------------------- every run

  lemma RowsAreOld(w: World, uid: Id, key: Key)
    requires CellsOk(w) && uid in w.cells && key in w.cells[uid].rows
    ensures key.version < w.nextId
  {
    CellFacts(w, uid);
    hide CellsOk;
  }

  lemma StepKeepsApart(w: World, step: Step)
    requires CellsOk(w) && KeysApart(w)
    ensures KeysApart(Apply(w, step))
  {
    hide Apply, CellsOk;
    var x := Apply(w, step);
    forall u, v, key | u in x.cells && v in x.cells && u != v && key in x.cells[u].rows ensures key !in x.cells[v].rows {
      if key in x.cells[v].rows {
        RowsOfStep(w, step, u, key);
        RowsOfStep(w, step, v, key);
        if u in w.cells && key in w.cells[u].rows { RowsAreOld(w, u, key); }
        if v in w.cells && key in w.cells[v].rows { RowsAreOld(w, v, key); }
      }
    }
  }

  lemma {:induction false} RunKeepsApart(w: World, steps: seq<Step>)
    requires Sound(w) && KeysApart(w)
    ensures KeysApart(Run(w, steps))
    decreases |steps|
  {
    hide Apply, CellsOk, NamesOk, IndexInv, KeysApart;
    if steps != [] {
      StepIsSound(w, steps[0]);
      StepKeepsApart(w, steps[0]);
      RunKeepsApart(Apply(w, steps[0]), steps[1..]);
    }
  }

  lemma CommittedRowExists(w: World, uid: Id, i: nat)
    requires CellsOk(w) && uid in w.cells && i < |w.cells[uid].log|
    ensures ControlKey(w.cells[uid].log[i].control.version) in w.cells[uid].rows
    ensures forall j :: 0 <= j < |w.cells[uid].log| && j != i ==> w.cells[uid].log[j].control.version != w.cells[uid].log[i].control.version
  {
    CellFacts(w, uid);
    LogFacts(w.cells[uid], w.nextId);
    hide CellsOk, CellInv;
    var c := w.cells[uid];
    assert SettledKey(c, ControlKey(c.log[i].control.version));
  }

  /** Two secrets never have the same current revision id. */
  lemma CurrentVersionsApart(w: World, u: Id, v: Id)
    requires CellsOk(w) && KeysApart(w) && u in w.cells && v in w.cells && u != v && |w.cells[u].log| > 0 && |w.cells[v].log| > 0
    ensures CurrentControl(w.cells[u]).version != CurrentControl(w.cells[v]).version
  {
    hide CellsOk;
    CommittedRowExists(w, u, |w.cells[u].log| - 1);
    CommittedRowExists(w, v, |w.cells[v].log| - 1);
  }

  lemma NoKeys()
    ensures KeysApart(Genesis)
  {
  }

  /** Two committed revisions with one id are the same revision of the same secret. */
  lemma VersionsAreUnique(steps: seq<Step>, u: Id, i: nat, v: Id, j: nat)
    requires u in Run(Genesis, steps).cells && i < |Run(Genesis, steps).cells[u].log|
    requires v in Run(Genesis, steps).cells && j < |Run(Genesis, steps).cells[v].log|
    ensures var w := Run(Genesis, steps);
            w.cells[u].log[i].control.version == w.cells[v].log[j].control.version <==> u == v && i == j
  {
    GenesisSound();
    RunIsSound(Genesis, steps);
    RunKeepsApart(Genesis, steps);
    var w := Run(Genesis, steps);
    hide Run, CellsOk, NamesOk, IndexInv;
    CommittedRowExists(w, u, i);
    CommittedRowExists(w, v, j);
  }
}
