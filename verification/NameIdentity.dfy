/** How a secret can lose its name, and exactly which commits break name identity. */
module NameIdentity {
  import opened Domain
  import opened Revisions
  import opened RevisionInvariants
  import opened AccessInvariants
  import opened ControlPlane
  import opened ControlPlaneInvariants
  import opened IndexInvariants
  import opened NameInvariants
  import opened ControlPlaneTheorems
  import opened SyncIndex

  // ---------------------------------------------------------------- a name lost is a publication

  /** The secret is no longer at or below the frontier. */
  predicate Above(w: World, uid: Id, frontier: nat) {
    uid in w.cells && (SequenceOf(w.cells[uid]).None? || SequenceOf(w.cells[uid]).value > frontier)
  }

  /** A step that takes a secret's name away publishes its archive, or removes a head never published. */
  lemma NameLostIsAbove(w: World, step: Step, uid: Id)
    requires Sound(w) && uid in w.cells && Resolves(w, uid)
    ensures uid in Apply(w, step).cells
    ensures Resolves(Apply(w, step), uid) || Above(Apply(w, step), uid, CounterOf(w, w.cells[uid].environment))
  {
    hide CellInv, IndexInv, NamesOk, CommitStep, PrepareStep, AbortStep, PublishBackfillStep, ClientCell, MaintenanceCell, NameKey;
    UidBelow(w, uid);
    CellPersists(w, step, uid);
    match step
    case CommitOp(u, o, lag) => CommitNames(w, u, o, lag, uid);
    case PrepareOp(u, o, lag) => PrepareNames(w, u, o, lag, uid);
    case Abort(u, o) => AbortNames(w, u, o, uid);
    case PublishBackfill(u, o, lag) => BackfillNames(w, u, o, lag);
    case _ => OtherNames(w, step);
  }

  lemma OtherNames(w: World, step: Step)
    requires !step.CommitOp? && !step.PrepareOp? && !step.Abort? && !step.PublishBackfill?
    ensures Apply(w, step).names == w.names
  {
    hide CommitStep, PrepareStep, AbortStep, PublishBackfillStep, ClientCell, MaintenanceCell, Begin;
  }

  lemma BackfillNames(w: World, u: Id, o: Id, lag: nat)
    ensures PublishBackfillStep(w, u, o, lag).names == w.names
  {
    hide CommitBackfill, AfterFailure, RowFree, BackfillAllowed;
  }

  lemma PrepareNames(w: World, u: Id, o: Id, lag: nat, uid: Id)
    requires uid in w.cells && Resolves(w, uid)
    ensures uid in PrepareStep(w, u, o, lag).cells ==>
              Resolves(PrepareStep(w, u, o, lag), uid) || NameKey(PrepareStep(w, u, o, lag).cells[uid]) != NameKey(w.cells[uid])
  {
    hide Prepare, NameKey;
    var c := CellOf(w, u);
    var v := PrepareStep(w, u, o, lag);
    if u in w.cells {
      PrepareNeedsFreeName(c, o, w.nextId, w.nextId + 1, NameKey(c) !in w.names, w.now,
                           w.now - (if lag <= w.now then lag else w.now) + LEASE_MILLISECONDS);
      assert v.names == w.names || (NameKey(c) !in w.names && v.names == w.names[NameKey(c) := u]);
    }
  }

  /** A head appears only for a name that was free. */
  lemma PrepareNeedsFreeName(c: Cell, o: Id, version: Id, payload: Id, nameFree: bool, now: nat, expires: nat)
    ensures c.head.None? && Prepare(c, o, version, payload, nameFree, now, expires).head.Some? ==> nameFree
  {
    hide NextControl, AccessItems, WithRows;
  }

  lemma CommitNames(w: World, u: Id, o: Id, lag: nat, uid: Id)
    requires CellsOk(w) && uid in w.cells && Resolves(w, uid)
    requires uid in CommitStep(w, u, o, lag).cells && NameKey(CommitStep(w, u, o, lag).cells[uid]) == NameKey(w.cells[uid])
    ensures var v := CommitStep(w, u, o, lag);
            Resolves(v, uid) || Above(v, uid, CounterOf(w, w.cells[uid].environment))
  {
    hide CellInv, CommitMutation, CommitAllowed, PublishRows, AfterFailure, RowFree;
    var c, v := CellOf(w, u), CommitStep(w, u, o, lag);
    if u in w.cells && o in c.ops && c.ops[o].Stored? && c.ops[o].stage.Primed? {
      var m, state, previous := c.ops[o].mutation, c.ops[o].stage.state, c.ops[o].stage.previous;
      PublishRowsFrame(w, u, m.control, state, previous, lag);
      if CounterHolds(w, m.control.environment, state)
         && CommitAllowed(c, o, m, Resolves(w, u), previous) && RowFree(w, u, m.control, state) {
        CommitFacts(c, o, w.nextId);
        CommitEffect(c, o, m, Resolves(w, u), previous, NextSequence(state), w.now + RETENTION_MILLISECONDS);
        ArchiveNeedsName(c, o, m, Resolves(w, u), previous);
        assert v.names == if m.archive then w.names - {NameKey(c)} else w.names;
        assert SequenceOf(v.cells[u]) == Some(NextSequence(state));
      }
    }
  }

  lemma AbortNames(w: World, u: Id, o: Id, uid: Id)
    requires uid in w.cells && Resolves(w, uid)
    requires uid in AbortStep(w, u, o).cells && NameKey(AbortStep(w, u, o).cells[uid]) == NameKey(w.cells[uid])
    ensures Resolves(AbortStep(w, u, o), uid) || Above(AbortStep(w, u, o), uid, CounterOf(w, w.cells[uid].environment))
  {
    hide HasRetryable;
  }

  // ---------------------------------------------------------------- the exact condition

  /** Every secret whose current ACL is not empty is the one its name resolves to. */
  ghost predicate Identity(w: World) {
    forall uid :: uid in w.cells ==> Identified(w, uid)
  }

  ghost predicate Identified(w: World, uid: Id)
    requires uid in w.cells
  {
    |w.cells[uid].log| > 0 && CurrentControl(w.cells[uid]).acl != map[] ==> Resolves(w, uid)
  }

  /** Identity survives a step exactly when the step is not such a commit. */
  lemma StepKeepsIdentity(w: World, step: Step)
    requires Sound(w) && Identity(w)
    ensures Identity(Apply(w, step)) <==> !GrantsUnnamed(w, step)
  {
    if step.CommitOp? && Commits(w, step.uid, step.op) {
      hide CellInv, IndexInv, Commits, Identity, Resolves;
      CommitIdentity(w, step.uid, step.op, step.lag);
    } else {
      hide CellInv, IndexInv, NamesOk, Commits, Identified, Apply;
      forall uid | uid in Apply(w, step).cells ensures Identified(Apply(w, step), uid) {
        QuietIdentity(w, step, uid);
      }
    }
  }

  lemma QuietIdentity(w: World, step: Step, uid: Id)
    requires Sound(w) && Identity(w) && uid in Apply(w, step).cells
    requires !(step.CommitOp? && Commits(w, step.uid, step.op))
    ensures Identified(Apply(w, step), uid)
  {
    hide CellInv, IndexInv, NamesOk, Commits, Apply, Resolves;
    NextIdIsNew(w);
    QuietLog(w, step, uid);
    if uid in w.cells && Resolves(w, uid) { QuietName(w, step, uid); }
  }

  /** Only a commit changes what is committed, and the access rows. */
  lemma QuietLog(w: World, step: Step, uid: Id)
    requires uid in Apply(w, step).cells && w.nextId !in w.cells
    requires !(step.CommitOp? && Commits(w, step.uid, step.op))
    ensures Apply(w, step).cells[uid].log == if uid in w.cells then w.cells[uid].log else []
    ensures uid in w.cells ==> Apply(w, step).cells[uid].access == w.cells[uid].access
  {
    hide Commits, ClientCell, MaintenanceCell, PrepareStep, CommitStep, PublishBackfillStep;
    if IsClientStep(step) {
      ClientCellName(w, CellOf(w, step.uid), step);
    } else if IsMaintenanceStep(step) {
      MaintenanceCellName(w, CellOf(w, step.uid), step);
    } else {
      match step
      case PrepareOp(u, o, lag) => PrepareLog(w, u, o, lag);
      case CommitOp(u, o, lag) => FailedCommit(w, u, o, lag);
      case PublishBackfill(u, o, lag) => BackfillLog(w, u, o, lag);
      case _ => OtherLog(w, step, uid);
    }
  }

  ghost predicate SameLogs(w: World, v: World) {
    v.cells.Keys == w.cells.Keys
    && (forall u :: u in w.cells ==> v.cells[u].log == w.cells[u].log && v.cells[u].access == w.cells[u].access)
  }

  lemma PrepareLog(w: World, u: Id, o: Id, lag: nat)
    ensures SameLogs(w, PrepareStep(w, u, o, lag))
  {
    hide Prepare;
    PrepareKeepsLog(CellOf(w, u), o, w.nextId, w.nextId + 1, NameKey(CellOf(w, u)) !in w.names, w.now,
                    w.now - (if lag <= w.now then lag else w.now) + LEASE_MILLISECONDS);
  }

  lemma PrepareKeepsLog(c: Cell, o: Id, version: Id, payload: Id, nameFree: bool, now: nat, expires: nat)
    ensures var d := Prepare(c, o, version, payload, nameFree, now, expires); d.log == c.log && d.access == c.access
  {
    hide MutationOf, WithRows, PrepareAllowed, PrepareHead;
  }

  lemma FailedCommit(w: World, u: Id, o: Id, lag: nat)
    requires !Commits(w, u, o)
    ensures SameLogs(w, CommitStep(w, u, o, lag)) && CommitStep(w, u, o, lag).names == w.names
  {
    hide CommitAllowed, RowFree, CounterHolds, PublishRows, CommitMutation;
  }

  lemma BackfillLog(w: World, u: Id, o: Id, lag: nat)
    ensures SameLogs(w, PublishBackfillStep(w, u, o, lag))
  {
    hide RowFree, CounterHolds, PublishRows, BackfillAllowed, CommitBackfill, AfterFailure;
    var c := CellOf(w, u);
    if u in w.cells && o in c.ops && c.ops[o].Backfilling? && c.ops[o].backfillStage.Primed? {
      BackfillKeepsLog(c, o, NextSequence(c.ops[o].backfillStage.state));
      PublishRowsFrame(w, u, c.ops[o].record, c.ops[o].backfillStage.state, c.ops[o].backfillStage.previous, lag);
    }
  }

  lemma BackfillKeepsLog(c: Cell, o: Id, sequence: nat)
    requires o in c.ops && c.ops[o].Backfilling?
    ensures c.head.Some? ==> CommitBackfill(c, o, sequence).log == c.log && CommitBackfill(c, o, sequence).access == c.access
    ensures forall contention :: AfterFailure(c, o, contention).log == c.log && AfterFailure(c, o, contention).access == c.access
    ensures forall record :: BackfillAllowed(c, record) ==> c.head.Some?
  {
  }

  lemma OtherLog(w: World, step: Step, uid: Id)
    requires !IsCellStep(step) && !step.PrepareOp? && !step.CommitOp? && !step.PublishBackfill?
    requires uid in Apply(w, step).cells && w.nextId !in w.cells
    ensures Apply(w, step).cells[uid].log == if uid in w.cells then w.cells[uid].log else []
    ensures uid in w.cells ==> Apply(w, step).cells[uid].access == w.cells[uid].access
  {
    hide PrepareStep, CommitStep, PublishBackfillStep, HasRetryable;
  }

  /** Only an archive commit, or an abort of a create that never committed, takes a name away. */
  lemma QuietName(w: World, step: Step, uid: Id)
    requires Sound(w) && uid in w.cells && uid in Apply(w, step).cells && Resolves(w, uid)
    requires !(step.CommitOp? && Commits(w, step.uid, step.op))
    ensures Resolves(Apply(w, step), uid) || w.cells[uid].log == []
  {
    hide CellInv, IndexInv, NamesOk, Commits, CommitStep, PrepareStep, AbortStep, PublishBackfillStep, ClientCell, MaintenanceCell, NameKey,
         StartStep, StartByNameStep, StartCreateStep, Resolves;
    UidBelow(w, uid);
    CellPersists(w, step, uid);
    if Apply(w, step).names == w.names { SameNames(w, Apply(w, step), uid); }
    match step
    case CommitOp(u, o, lag) => FailedCommit(w, u, o, lag);
    case PrepareOp(u, o, lag) => PrepareNames(w, u, o, lag, uid);
    case Abort(u, o) => AbortedNeverCommitted(w, u, o, uid);
    case PublishBackfill(u, o, lag) => BackfillNames(w, u, o, lag);
    case _ => OtherNames(w, step);
  }

  lemma SameNames(w: World, v: World, uid: Id)
    requires uid in w.cells && uid in v.cells && v.names == w.names && NameKey(v.cells[uid]) == NameKey(w.cells[uid])
    ensures Resolves(v, uid) == Resolves(w, uid)
  {
  }

  lemma AbortedNeverCommitted(w: World, u: Id, o: Id, uid: Id)
    requires CellsOk(w) && uid in w.cells && Resolves(w, uid)
    requires uid in AbortStep(w, u, o).cells && NameKey(AbortStep(w, u, o).cells[uid]) == NameKey(w.cells[uid])
    ensures Resolves(AbortStep(w, u, o), uid) || w.cells[uid].log == []
  {
    CellFacts(w, uid);
    LogFacts(w.cells[uid], w.nextId);
    hide CellsOk, CellInv, HasRetryable;
  }

  /** A commit keeps identity exactly when it carries no ACL or its secret still has the name. */
  lemma CommitIdentity(w: World, uid: Id, o: Id, lag: nat)
    requires Sound(w) && Identity(w) && Commits(w, uid, o)
    ensures Identity(CommitStep(w, uid, o, lag)) <==> (w.cells[uid].ops[o].mutation.control.acl == map[] || Resolves(w, uid))
  {
    hide CellInv, IndexInv, NamesOk, CommitMutation, CommitAllowed, PublishRows, RowFree, CounterHolds, Identified;
    var c, v := w.cells[uid], CommitStep(w, uid, o, lag);
    var m, state, previous := c.ops[o].mutation, c.ops[o].stage.state, c.ops[o].stage.previous;
    PublishRowsFrame(w, uid, m.control, state, previous, lag);
    CommitEffect(c, o, m, Resolves(w, uid), previous, NextSequence(state), w.now + RETENTION_MILLISECONDS);
    ArchiveNeedsName(c, o, m, Resolves(w, uid), previous);
    CellFacts(w, uid);
    ArchiveHasNoAcl(c, o, w.nextId);
    forall u | u in w.cells && u != uid ensures Identified(v, u) {
      OthersIdentified(w, v, u, uid, m.archive);
    }
    CommittedIdentified(w, v, uid, m);
  }

  lemma ArchiveHasNoAcl(c: Cell, o: Id, n: Id)
    requires CellInv(c, n) && o in c.ops && c.ops[o].Stored?
    ensures c.ops[o].mutation.archive ==> c.ops[o].mutation.control.acl == map[]
  {
    assert OpOk(c, o, c.ops[o]);
  }

  lemma OthersIdentified(w: World, v: World, u: Id, uid: Id, drop: bool)
    requires Identity(w) && uid in w.cells && u in w.cells && u != uid && u in v.cells && v.cells[u] == w.cells[u]
    requires (drop ==> Resolves(w, uid)) && v.names == DropName(w, w.cells[uid], drop)
    ensures Identified(v, u)
  {
    assert Identified(w, u);
  }

  lemma CommittedIdentified(w: World, v: World, uid: Id, m: Mutation)
    requires uid in w.cells && uid in v.cells && NameKey(v.cells[uid]) == NameKey(w.cells[uid])
    requires |v.cells[uid].log| > 0 && CurrentControl(v.cells[uid]) == m.control && (m.archive ==> m.control.acl == map[])
    requires v.names == DropName(w, w.cells[uid], m.archive)
    ensures Identified(v, uid) <==> (m.control.acl == map[] || Resolves(w, uid))
  {
  }

  ghost predicate AlwaysIdentified(w: World, steps: seq<Step>)
    decreases |steps|
  {
    Identity(w) && (steps == [] || AlwaysIdentified(Apply(w, steps[0]), steps[1..]))
  }

  /** Identity holds throughout a run exactly when no commit of the run grants access under a lost name. */
  lemma {:induction false} IdentityThroughout(w: World, steps: seq<Step>)
    requires Sound(w) && Identity(w)
    ensures AlwaysIdentified(w, steps) <==> NeverGrantsUnnamed(w, steps)
    decreases |steps|
  {
    hide Sound, Identity, GrantsUnnamed, Apply;
    if steps != [] {
      var v := Apply(w, steps[0]);
      StepIsSound(w, steps[0]);
      StepKeepsIdentity(w, steps[0]);
      if Identity(v) { IdentityThroughout(v, steps[1..]); }
      else { assert !AlwaysIdentified(v, steps[1..]); }
    }
  }

  /** Where identity holds, a secret without its name has no ACL to replace. */
  lemma IdentityForbidsRewrites(w: World, step: Step)
    requires Sound(w) && Identity(w)
    ensures !RewritesUnnamed(w, step)
  {
    if step.CommitOp? && Commits(w, step.uid, step.op) {
      hide CounterHolds, RowFree, TransactionSize, CellInv, IndexInv, NamesOk;
      assert Identified(w, step.uid);
      CellFacts(w, step.uid);
      HolderReplacesCurrent(w.cells[step.uid], step.op, w.nextId);
    }
  }

  lemma HolderReplacesCurrent(c: Cell, o: Id, n: Id)
    requires CellInv(c, n) && o in c.ops && c.ops[o].Stored?
    requires c.head.Some? && c.head.value.lease.Some? && c.head.value.lease.value.owner == o
    ensures c.ops[o].mutation.base.Some? ==> |c.log| > 0 && c.ops[o].mutation.base.value.control == CurrentControl(c)
  {
    LeaseMeansCurrent(c, o, n);
  }

  lemma {:induction false} IdentityForbidsRewritesIn(w: World, steps: seq<Step>)
    requires Sound(w) && Identity(w) && NeverGrantsUnnamed(w, steps)
    ensures NeverRewritesUnnamed(w, steps) && Identity(Run(w, steps))
    decreases |steps|
  {
    hide Sound, Identity, GrantsUnnamed, RewritesUnnamed, Apply;
    if steps != [] {
      IdentityForbidsRewrites(w, steps[0]);
      StepIsSound(w, steps[0]);
      StepKeepsIdentity(w, steps[0]);
      IdentityForbidsRewritesIn(Apply(w, steps[0]), steps[1..]);
    }
  }

  ghost predicate NamesIdentify(w: World, name: (Name, Name), uid: Id) {
    && (name in w.names ==>
          && w.names[name] in w.cells && NameKey(w.cells[w.names[name]]) == name
          && w.cells[w.names[name]].head.Some? && w.cells[w.names[name]].head.value.state != Archived)
    && (uid in w.cells && |w.cells[uid].log| > 0 && CurrentControl(w.cells[uid]).acl != map[] ==>
          NameKey(w.cells[uid]) in w.names && w.names[NameKey(w.cells[uid])] == uid)
  }

  /**
   * A LOOKUP names an existing secret that carries the name and is not archived, and any secret whose
   * current ACL is not empty is the one its name resolves to.
   */
  lemma NamesAreIdentities(steps: seq<Step>, name: (Name, Name), uid: Id)
    requires NeverGrantsUnnamed(Genesis, steps)
    ensures NamesIdentify(Run(Genesis, steps), name, uid)
  {
    GenesisSound();
    hide Run, CellInv, NamedInv, IndexInv, NeverGrantsUnnamed, NeverRewritesUnnamed;
    IdentityForbidsRewritesIn(Genesis, steps);
    RunIsNamed(Genesis, steps);
    var w := Run(Genesis, steps);
    if name in w.names {
      var u := w.names[name];
      CellFacts(w, u);
      NamedFacts(w, u);
      ResolvedIsLive(w.cells[u], u, w.nextId);
    }
    if uid in w.cells { assert Identified(w, uid); }
  }

  lemma ResolvedIsLive(c: Cell, uid: Id, n: Id)
    requires CellInv(c, n) && NamedInv(c, uid, true)
    ensures c.head.Some? && c.head.value.state != Archived
  {
  }
}
