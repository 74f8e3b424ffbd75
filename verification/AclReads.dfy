/**
 * When a read is authorised exactly by the current ACL: always while the name still resolves, and under a name
 * resolved earlier exactly while no commit of the secret leaves a stored access row unaccounted for.
 */
module AclReads {
  import opened Domain
  import opened Revisions
  import opened RevisionInvariants
  import opened AccessInvariants
  import opened ControlPlane
  import opened ControlPlaneInvariants
  import opened IndexInvariants
  import opened NameInvariants
  import opened ControlPlaneTheorems
  import opened NameIdentity
  import opened SyncIndex

  /** The read is authorised exactly when the secret's head is ACTIVE and its current ACL grants the read. */
  ghost predicate ReadAgrees(w: World, resolved: Option<Id>, consumer: Id, environment: Name, secretId: Name) {
    ReadAllowed(w, resolved, consumer, environment, secretId)
    <==> (resolved.Some? && resolved.value in w.cells && IsReady(w.cells[resolved.value])
          && w.cells[resolved.value].head.value.state == Active && |w.cells[resolved.value].log| > 0
          && consumer in Readers(CurrentControl(w.cells[resolved.value]).acl))
  }

  /** If the current revision serves reads, the rows follow its ACL. */
  ghost predicate Agrees(c: Cell) {
    |c.log| > 0 && CurrentControl(c).state == Active ==> AccessOk(c)
  }

  /** A current revision is served exactly when it is ACTIVE, under rows that carry the secret's name. */
  lemma ServedIsActive(c: Cell, n: Id, uid: Id, resolves: bool)
    requires CellInv(c, n) && NamedInv(c, uid, resolves)
    ensures RowNames(c) && (resolves ==> AccessOk(c))
    ensures c.head.Some? && c.head.value.state == Active <==> |c.log| > 0 && CurrentControl(c).state == Active
    ensures |c.log| > 0 ==> IsReady(c)
  {
  }

  /** The reads of all consumers are exact precisely when the cell agrees. */
  lemma ReadsAgree(w: World, uid: Id, environment: Name, secretId: Name)
    requires CellsOk(w) && NamedAll(w) && uid in w.cells && NameKey(w.cells[uid]) == (environment, secretId)
    ensures (forall k: Id :: ReadAgrees(w, Some(uid), k, environment, secretId)) <==> Agrees(w.cells[uid])
  {
    hide CellInv, NamedInv, Resolves;
    CellFacts(w, uid);
    NamedFacts(w, uid);
    var c := w.cells[uid];
    ServedIsActive(c, w.nextId, uid, Resolves(w, uid));
    hide CellsOk, NamedAll, AccessOk;
    if |c.log| > 0 && CurrentControl(c).state == Active {
      forall k: Id ensures ReadAgrees(w, Some(uid), k, environment, secretId)
                           <==> (k in ReadableBy(c.access) <==> k in Readers(CurrentControl(c).acl)) {
      }
      EqualRows(c);
    }
  }

  lemma EqualRows(c: Cell)
    requires |c.log| > 0
    ensures AccessOk(c) <==> forall k: Id :: k in ReadableBy(c.access) <==> k in Readers(CurrentControl(c).acl)
  {
    hide ReadableBy, Readers;
  }

  // ---------------------------------------------------------------- one step

  /** The step commits a revision of this secret. */
  predicate Revises(w: World, step: Step, uid: Id) {
    step.CommitOp? && step.uid == uid && Commits(w, uid, step.op)
  }

  /** The step commits a revision that serves reads, and leaves a stored row of the secret unaccounted for. */
  predicate Strands(w: World, step: Step, uid: Id) {
    Revises(w, step, uid) &&
    var m := w.cells[uid].ops[step.op].mutation;
    m.control.state == Active && !Accounts(m.control, m.prior, w.cells[uid].access)
  }

  ghost predicate NeverStrands(w: World, steps: seq<Step>, uid: Id)
    decreases |steps|
  {
    steps == [] || (!Strands(w, steps[0], uid) && NeverStrands(Apply(w, steps[0]), steps[1..], uid))
  }

  lemma CommittedCell(w: World, uid: Id, o: Id, lag: nat)
    requires Commits(w, uid, o)
    ensures var c, op := w.cells[uid], w.cells[uid].ops[o];
            var v := Apply(w, CommitOp(uid, o, lag));
            && c.head.Some? && c.head.value.lease.Some? && c.head.value.lease.value.owner == o && uid in v.cells
            && v.cells[uid] == CommitMutation(c, o, op.mutation, NextSequence(op.stage.state), w.now + RETENTION_MILLISECONDS)
  {
    hide CommitMutation, PublishRows, RowFree, CounterHolds, TransactionSize, HasRow;
    var op := w.cells[uid].ops[o];
    PublishRowsFrame(w, uid, op.mutation.control, op.stage.state, op.stage.previous, lag);
    assert Apply(w, CommitOp(uid, o, lag)) == CommitStep(w, uid, o, lag);
  }

  /** A step of another kind leaves the secret's revisions and rows alone. */
  lemma UnrevisedCell(w: World, step: Step, uid: Id)
    requires Sound(w) && uid in w.cells && !Revises(w, step, uid)
    ensures uid in Apply(w, step).cells
    ensures Apply(w, step).cells[uid].log == w.cells[uid].log && Apply(w, step).cells[uid].access == w.cells[uid].access
  {
    hide CellInv, IndexInv, NamesOk, Commits, Apply;
    UidBelow(w, uid);
    CellPersists(w, step, uid);
    NextIdIsNew(w);
    if step.CommitOp? && Commits(w, step.uid, step.op) { OtherCell(w, step.uid, step.op, step.lag, uid); }
    else { QuietLog(w, step, uid); }
  }

  lemma OtherCell(w: World, u: Id, o: Id, lag: nat, uid: Id)
    requires Commits(w, u, o) && uid in w.cells && uid != u
    ensures uid in Apply(w, CommitOp(u, o, lag)).cells && Apply(w, CommitOp(u, o, lag)).cells[uid] == w.cells[uid]
  {
    hide CommitMutation, PublishRows, RowFree, CounterHolds, TransactionSize, HasRow;
    var op := w.cells[u].ops[o];
    PublishRowsFrame(w, u, op.mutation.control, op.stage.state, op.stage.previous, lag);
    assert Apply(w, CommitOp(u, o, lag)) == CommitStep(w, u, o, lag);
  }

  /** A commit of the secret makes its rows follow exactly when it accounts for them. */
  lemma RevisedCell(w: World, uid: Id, o: Id, lag: nat)
    requires Sound(w) && Commits(w, uid, o)
    ensures var m := w.cells[uid].ops[o].mutation;
            var v := Apply(w, CommitOp(uid, o, lag));
            && uid in v.cells && |v.cells[uid].log| > 0 && CurrentControl(v.cells[uid]) == m.control
            && (AccessOk(v.cells[uid]) <==> Accounts(m.control, m.prior, w.cells[uid].access))
  {
    hide CellInv, IndexInv, NamesOk, AccessOk, Apply, CommitAllowed, RowFree, CounterHolds;
    CellFacts(w, uid);
    CommittedCell(w, uid, o, lag);
    var stage := w.cells[uid].ops[o].stage;
    CommitFollowsExactly(w.cells[uid], o, NextSequence(stage.state), w.now + RETENTION_MILLISECONDS, w.nextId);
    hide CommitHead, CommitRows, AccessProjectionChanged, AccessItems, Accounts;
  }

  /** Agreement survives a step exactly when the step is not such a commit. */
  lemma StepKeepsAgreement(w: World, step: Step, uid: Id)
    requires Sound(w) && uid in w.cells && Agrees(w.cells[uid])
    ensures uid in Apply(w, step).cells && (Agrees(Apply(w, step).cells[uid]) <==> !Strands(w, step, uid))
  {
    hide Sound, Commits, Apply, Accounts;
    if Revises(w, step, uid) { RevisedCell(w, uid, step.op, step.lag); } else { UnrevisedCell(w, step, uid); }
  }

  // ---------------------------------------------------------------- every run

  /** At every moment, every consumer's read under the name resolved before is exact. */
  ghost predicate AlwaysAgree(w: World, steps: seq<Step>, uid: Id, environment: Name, secretId: Name)
    decreases |steps|
  {
    (forall k: Id :: ReadAgrees(w, Some(uid), k, environment, secretId))
    && (steps == [] || AlwaysAgree(Apply(w, steps[0]), steps[1..], uid, environment, secretId))
  }

  lemma StepKeepsName(w: World, step: Step, uid: Id)
    requires Sound(w) && NamedAll(w) && uid in w.cells
    ensures var v := Apply(w, step); Sound(v) && NamedAll(v) && uid in v.cells && NameKey(v.cells[uid]) == NameKey(w.cells[uid])
  {
    hide CellInv, NamedAll, NamesOk, IndexInv, Apply;
    UidBelow(w, uid);
    StepKeepsCells(w, step);
    StepKeepsIndex(w, step);
    StepKeepsNamed(w, step);
    CellPersists(w, step, uid);
  }

  lemma {:induction false} AgreeFrom(w: World, steps: seq<Step>, uid: Id, environment: Name, secretId: Name)
    requires Sound(w) && NamedAll(w) && uid in w.cells && NameKey(w.cells[uid]) == (environment, secretId) && Agrees(w.cells[uid])
    ensures AlwaysAgree(w, steps, uid, environment, secretId) <==> NeverStrands(w, steps, uid)
    decreases |steps|
  {
    hide CellsOk, NamesOk, IndexInv, NamedAll, Apply, Agrees, Strands, ReadAgrees;
    ReadsAgree(w, uid, environment, secretId);
    if steps != [] {
      var v := Apply(w, steps[0]);
      StepKeepsName(w, steps[0], uid);
      StepKeepsAgreement(w, steps[0], uid);
      if Agrees(v.cells[uid]) {
        AgreeFrom(v, steps[1..], uid, environment, secretId);
      } else {
        ReadsAgree(v, uid, environment, secretId);
        assert !AlwaysAgree(v, steps[1..], uid, environment, secretId);
      }
    }
  }

  lemma {:induction false} AgreesAtLast(w: World, steps: seq<Step>, uid: Id)
    requires Sound(w) && NamedAll(w) && uid in w.cells && Agrees(w.cells[uid]) && NeverStrands(w, steps, uid)
    ensures uid in Run(w, steps).cells && Agrees(Run(w, steps).cells[uid])
    decreases |steps|
  {
    hide CellsOk, NamesOk, IndexInv, NamedAll, Apply, Agrees, Strands;
    if steps != [] {
      StepKeepsName(w, steps[0], uid);
      StepKeepsAgreement(w, steps[0], uid);
      AgreesAtLast(Apply(w, steps[0]), steps[1..], uid);
    }
  }

  lemma LookupIsCell(w: World, environment: Name, secretId: Name)
    requires NamesOk(w) && LookupName(w, environment, secretId).Some?
    ensures var uid := LookupName(w, environment, secretId).value;
            uid in w.cells && NameKey(w.cells[uid]) == (environment, secretId) && Resolves(w, uid)
  {
  }

  lemma ResolvedAgrees(w: World, uid: Id)
    requires CellsOk(w) && NamedAll(w) && uid in w.cells && Resolves(w, uid)
    ensures AccessOk(w.cells[uid]) && Agrees(w.cells[uid])
  {
    hide CellInv, NamedInv, Resolves;
    CellFacts(w, uid);
    NamedFacts(w, uid);
    ServedIsActive(w.cells[uid], w.nextId, uid, true);
  }

  lemma Unresolved(w: World, consumer: Id, environment: Name, secretId: Name)
    ensures ReadAgrees(w, None, consumer, environment, secretId)
  {
  }

  lemma NamedReadAgrees(w: World, consumer: Id, environment: Name, secretId: Name)
    requires CellsOk(w) && NamesOk(w) && NamedAll(w)
    ensures ReadAgrees(w, LookupName(w, environment, secretId), consumer, environment, secretId)
  {
    hide CellsOk, NamesOk, NamedAll, ReadAgrees, Agrees, AccessOk;
    var resolved := LookupName(w, environment, secretId);
    if resolved.Some? {
      LookupIsCell(w, environment, secretId);
      ResolvedAgrees(w, resolved.value);
      ReadsAgree(w, resolved.value, environment, secretId);
    } else {
      Unresolved(w, consumer, environment, secretId);
    }
  }

  /** In every run, a read under a name that resolves now is authorised exactly when the secret is ACTIVE and its ACL grants it. */
  lemma NamedReadsFollowTheAcl(steps: seq<Step>, consumer: Id, environment: Name, secretId: Name)
    ensures ReadAgrees(Run(Genesis, steps), LookupName(Run(Genesis, steps), environment, secretId), consumer, environment, secretId)
  {
    hide Run, CellsOk, NamesOk, NamedAll, IndexInv, ReadAgrees;
    GenesisSound();
    RunIsNamed(Genesis, steps);
    NamedReadAgrees(Run(Genesis, steps), consumer, environment, secretId);
  }

  /**
   * From the moment a name is resolved, through any further writes, the reads of all consumers under it stay exact
   * precisely as long as no commit of that secret strands a row.
   */
  lemma StaleReadsFollowExactly(before: seq<Step>, between: seq<Step>, environment: Name, secretId: Name)
    requires LookupName(Run(Genesis, before), environment, secretId).Some?
    ensures var u := Run(Genesis, before);
            var uid := LookupName(u, environment, secretId).value;
            AlwaysAgree(u, between, uid, environment, secretId) <==> NeverStrands(u, between, uid)
  {
    hide Run, CellsOk, NamesOk, NamedAll, IndexInv, AlwaysAgree, NeverStrands, Agrees, AccessOk;
    GenesisSound();
    RunIsNamed(Genesis, before);
    var u := Run(Genesis, before);
    LookupIsCell(u, environment, secretId);
    ResolvedAgrees(u, LookupName(u, environment, secretId).value);
    AgreeFrom(u, between, LookupName(u, environment, secretId).value, environment, secretId);
  }

  /**
   * A read is authorised exactly when the secret its name resolved to is ACTIVE and its current ACL grants the read, if
   * the name still resolves to that secret or none of the writes since then has stranded a row of it.
   */
  lemma ReadFollowsTheAcl(before: seq<Step>, between: seq<Step>, consumer: Id, environment: Name, secretId: Name)
    requires var u := Run(Genesis, before);
             var resolved := LookupName(u, environment, secretId);
             resolved.Some? ==> LookupName(Run(u, between), environment, secretId) == resolved || NeverStrands(u, between, resolved.value)
    ensures ReadAgrees(Run(Run(Genesis, before), between), LookupName(Run(Genesis, before), environment, secretId),
                       consumer, environment, secretId)
  {
    hide Run, CellsOk, NamesOk, NamedAll, IndexInv, NeverStrands, ReadAgrees, Agrees, AccessOk;
    GenesisSound();
    RunIsNamed(Genesis, before);
    var u := Run(Genesis, before);
    RunIsNamed(u, between);
    var w, resolved := Run(u, between), LookupName(u, environment, secretId);
    if resolved.Some? {
      LookupIsCell(u, environment, secretId);
      CellsPersist(u, between, resolved.value);
      if LookupName(w, environment, secretId) == resolved {
        LookupIsCell(w, environment, secretId);
        ResolvedAgrees(w, resolved.value);
      } else {
        ResolvedAgrees(u, resolved.value);
        AgreesAtLast(u, between, resolved.value);
      }
      ReadsAgree(w, resolved.value, environment, secretId);
    } else {
      Unresolved(w, consumer, environment, secretId);
    }
  }

  // ---------------------------------------------------------------- commits that account for every row

  /** Only the replacement of an ACL under a lost name can leave a row unaccounted for. */
  lemma StepAccounts(w: World, step: Step, uid: Id)
    requires Sound(w) && NamedAll(w) && uid in w.cells && AccessOk(w.cells[uid]) && !RewritesUnnamed(w, step)
    ensures uid in Apply(w, step).cells && AccessOk(Apply(w, step).cells[uid]) && !Strands(w, step, uid)
  {
    hide CellInv, NamedInv, IndexInv, NamesOk, AccessOk, Apply, Accounts;
    if Revises(w, step, uid) {
      CellFacts(w, uid);
      NamedFacts(w, uid);
      CommittedCell(w, uid, step.op, step.lag);
      RevisedCell(w, uid, step.op, step.lag);
      var c, op := w.cells[uid], w.cells[uid].ops[step.op];
      hide CommitMutation, CommitAllowed, RowFree, CounterHolds, Rewrites;
      CommitKeepsAccess(c, step.op, NextSequence(op.stage.state), w.now + RETENTION_MILLISECONDS, w.nextId, uid, Resolves(w, uid));
    } else {
      UnrevisedCell(w, step, uid);
      SameRows(w.cells[uid], Apply(w, step).cells[uid]);
    }
  }

  lemma SameRows(c: Cell, d: Cell)
    requires AccessOk(c) && d.log == c.log && d.access == c.access
    ensures AccessOk(d)
  {
  }

  lemma {:induction false} AccountsFrom(w: World, steps: seq<Step>, uid: Id)
    requires Sound(w) && NamedAll(w) && uid in w.cells && AccessOk(w.cells[uid]) && NeverRewritesUnnamed(w, steps)
    ensures NeverStrands(w, steps, uid)
    decreases |steps|
  {
    hide CellsOk, NamesOk, IndexInv, NamedAll, AccessOk, Apply, Strands, RewritesUnnamed;
    if steps != [] {
      StepAccounts(w, steps[0], uid);
      StepKeepsName(w, steps[0], uid);
      AccountsFrom(Apply(w, steps[0]), steps[1..], uid);
    }
  }

  ghost predicate AllFollow(w: World) {
    forall uid :: uid in w.cells ==> AccessOk(w.cells[uid])
  }

  lemma StepFollows(w: World, step: Step)
    requires Sound(w) && NamedAll(w) && AllFollow(w) && !RewritesUnnamed(w, step)
    ensures Sound(Apply(w, step)) && NamedAll(Apply(w, step)) && AllFollow(Apply(w, step))
  {
    hide CellInv, NamesOk, IndexInv, NamedInv, AccessOk, Apply, RewritesUnnamed, Resolves;
    StepKeepsCells(w, step);
    StepKeepsIndex(w, step);
    StepKeepsNamed(w, step);
    NextIdIsNew(w);
    forall uid | uid in Apply(w, step).cells ensures AccessOk(Apply(w, step).cells[uid]) {
      if uid in w.cells { StepAccounts(w, step, uid); }
      else {
        NewIsQuiet(w, step, uid);
        NamedFacts(Apply(w, step), uid);
        NewFollows(Apply(w, step).cells[uid], uid, Resolves(Apply(w, step), uid));
      }
    }
  }

  lemma NewIsQuiet(w: World, step: Step, uid: Id)
    requires w.nextId !in w.cells && uid in Apply(w, step).cells && uid !in w.cells
    ensures Apply(w, step).cells[uid].log == []
  {
    hide Apply, CommitStep;
    if step.CommitOp? && Commits(w, step.uid, step.op) {
      CommitAddsNone(w, step.uid, step.op, step.lag);
    } else {
      QuietLog(w, step, uid);
    }
  }

  lemma CommitAddsNone(w: World, u: Id, o: Id, lag: nat)
    requires Commits(w, u, o)
    ensures Apply(w, CommitOp(u, o, lag)).cells.Keys == w.cells.Keys
  {
    hide CommitMutation, PublishRows, RowFree, CounterHolds, TransactionSize, HasRow;
    var op := w.cells[u].ops[o];
    PublishRowsFrame(w, u, op.mutation.control, op.stage.state, op.stage.previous, lag);
    assert Apply(w, CommitOp(u, o, lag)) == CommitStep(w, u, o, lag);
  }

  lemma NewFollows(c: Cell, uid: Id, resolves: bool)
    requires NamedInv(c, uid, resolves) && c.log == []
    ensures AccessOk(c)
  {
  }

  lemma {:induction false} FollowFrom(w: World, steps: seq<Step>)
    requires Sound(w) && NamedAll(w) && AllFollow(w) && NeverRewritesUnnamed(w, steps)
    ensures NamedAll(Run(w, steps)) && AllFollow(Run(w, steps))
    decreases |steps|
  {
    hide CellsOk, NamesOk, IndexInv, NamedAll, AllFollow, Apply, RewritesUnnamed;
    if steps != [] {
      StepFollows(w, steps[0]);
      FollowFrom(Apply(w, steps[0]), steps[1..]);
    }
  }
}
