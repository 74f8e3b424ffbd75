/** The programs that drive the table: a service's mutation, the recovery handler and the retention handler. */
module TablePrograms {
  import opened Domain
  import opened Revisions
  import opened RevisionInvariants
  import opened ControlPlane
  import opened ControlPlaneInvariants
  import opened IndexInvariants
  import opened NameInvariants
  import opened ControlPlaneTheorems
  import opened SyncIndex
  import opened NameIdentity
  import opened ControlTable
  import opened IndexBackfill
  import opened LeaseRecovery

  // ---------------------------------------------------------------- one mutation

  lemma CommitIsStep(w: World, uid: Id, o: Id, lag: nat)
    ensures Apply(w, CommitOp(uid, o, lag)) == CommitStep(w, uid, o, lag)
  {
    hide CommitStep;
  }

  /** A commit that was reported made its revision the current one. */
  lemma PublishedIsCurrent(w: World, uid: Id, o: Id, lag: nat)
    requires CommitOutcome(w, uid, o) == Published
    ensures var v := CommitStep(w, uid, o, lag);
            && uid in v.cells && o in v.cells[uid].ops && v.cells[uid].ops[o] == Committed(w.cells[uid].ops[o].mutation)
            && |v.cells[uid].log| > 0 && CurrentControl(v.cells[uid]) == w.cells[uid].ops[o].mutation.control
  {
    hide CommitAllowed, CommitMutation, PublishRows, RowFree, CounterHolds;
    var c := w.cells[uid];
    var m, stage := c.ops[o].mutation, c.ops[o].stage;
    PublishRowsFrame(w, uid, m.control, stage.state, stage.previous, lag);
    CommitEffect(c, o, m, Resolves(w, uid), stage.previous, NextSequence(stage.state), w.now + RETENTION_MILLISECONDS);
  }

  /** An operation that is not committed has left no revision behind. */
  lemma UncommittedLeavesNothing(w: World, uid: Id, o: Id)
    requires Sound(w) && uid in w.cells && o in w.cells[uid].ops && !w.cells[uid].ops[o].Committed?
    requires MutationPrepared(w.cells[uid].ops[o]).Some?
    ensures var version := MutationPrepared(w.cells[uid].ops[o]).value.control.version;
            && (forall i :: 0 <= i < |w.cells[uid].log| ==> w.cells[uid].log[i].control.version != version)
            && (IsReady(w.cells[uid]) ==> w.cells[uid].head.value.control != version)
  {
    hide CellInv, IndexInv, NamesOk;
    CellFacts(w, uid);
    UncommittedInCell(w.cells[uid], o, w.nextId);
  }

  lemma UncommittedInCell(c: Cell, o: Id, n: Id)
    requires CellInv(c, n) && o in c.ops && !c.ops[o].Committed? && MutationPrepared(c.ops[o]).Some?
    ensures var version := MutationPrepared(c.ops[o]).value.control.version;
            && (forall i :: 0 <= i < |c.log| ==> c.log[i].control.version != version)
            && (IsReady(c) ==> c.head.value.control != version)
  {
    assert OpOk(c, o, c.ops[o]);
    var version := MutationPrepared(c.ops[o]).value.control.version;
    forall i | 0 <= i < |c.log| ensures c.log[i].control.version != version {
      assert SettledKey(c, ControlKey(c.log[i].control.version));
    }
  }

  /** The operation's revision has been committed. */
  predicate Finished(w: World, uid: Id, o: Id) {
    uid in w.cells && o in w.cells[uid].ops && w.cells[uid].ops[o].Committed?
  }

  predicate Commits(step: Step, uid: Id, o: Id) {
    step.CommitOp? && step.uid == uid && step.op == o
  }

  /** No client commits another's operation. */
  lemma OnlyItsCommitFinishes(w: World, step: Step, uid: Id, o: Id)
    requires !Finished(w, uid, o) && !Commits(step, uid, o)
    ensures !Finished(Apply(w, step), uid, o)
  {
    hide Apply, CommitStep, PublishBackfillStep, PrepareStep, ClientCell, MaintenanceCell;
    StepIs(w, step);
    if IsClientStep(step) {
      ClientFinishesNone(w, CellOf(w, step.uid), step, o);
    } else if IsMaintenanceStep(step) {
      MaintenanceKeepsOps(w, CellOf(w, step.uid), step);
    } else {
      match step
      case PrepareOp(u, x, lag) => PrepareFinishesNone(w, u, x, lag, uid, o);
      case CommitOp(u, x, lag) => CommitFinishesItsOwn(w, u, x, lag, uid, o);
      case PublishBackfill(u, x, lag) => BackfillFinishesNone(w, u, x, lag, uid, o);
      case _ => OtherFinishesNone(w, step, uid, o);
    }
  }

  lemma ClientFinishesNone(w: World, c: Cell, step: Step, o: Id)
    requires IsClientStep(step)
    ensures var d := ClientCell(w, c, step);
            o in d.ops && d.ops[o].Committed? ==> o in c.ops && c.ops[o].Committed?
  {
    hide ClientCell, Mover;
    ClientMovesLocals(w, c, step);
  }

  lemma MaintenanceKeepsOps(w: World, c: Cell, step: Step)
    requires IsMaintenanceStep(step)
    ensures MaintenanceCell(w, c, step).ops == c.ops
  {
  }

  lemma OtherFinishesNone(w: World, step: Step, uid: Id, o: Id)
    requires !Finished(w, uid, o) && !IsCellStep(step) && !step.PrepareOp? && !step.CommitOp? && !step.PublishBackfill?
    ensures !Finished(Apply(w, step), uid, o)
  {
    hide PrepareStep, CommitStep, PublishBackfillStep, HasRetryable;
  }

  lemma PrepareFinishesNone(w: World, u: Id, x: Id, lag: nat, uid: Id, o: Id)
    requires !Finished(w, uid, o)
    ensures !Finished(PrepareStep(w, u, x, lag), uid, o)
  {
    hide NextControl, PrepareHead, WithRows, PrepareAllowed;
  }

  lemma CommitFinishesItsOwn(w: World, u: Id, x: Id, lag: nat, uid: Id, o: Id)
    requires !Finished(w, uid, o) && (u != uid || x != o)
    ensures !Finished(CommitStep(w, u, x, lag), uid, o)
  {
    hide CommitAllowed, PublishRows, RowFree, CounterHolds, CommitHead, CommitRows, AccessItems, AccessProjectionChanged;
    if u in w.cells && x in w.cells[u].ops && w.cells[u].ops[x].Stored? && w.cells[u].ops[x].stage.Primed? {
      var m, stage := w.cells[u].ops[x].mutation, w.cells[u].ops[x].stage;
      PublishRowsFrame(w, u, m.control, stage.state, stage.previous, lag);
    }
  }

  lemma BackfillFinishesNone(w: World, u: Id, x: Id, lag: nat, uid: Id, o: Id)
    requires !Finished(w, uid, o)
    ensures !Finished(PublishBackfillStep(w, u, x, lag), uid, o)
  {
    hide PublishRows, RowFree, CounterHolds;
    if u in w.cells && x in w.cells[u].ops && w.cells[u].ops[x].Backfilling? && w.cells[u].ops[x].backfillStage.Primed? {
      var record, stage := w.cells[u].ops[x].record, w.cells[u].ops[x].backfillStage;
      PublishRowsFrame(w, u, record, stage.state, stage.previous, lag);
    }
  }

  lemma {:induction false} RunLeavesUnfinished(w: World, steps: seq<Step>, uid: Id, o: Id)
    requires !Finished(w, uid, o) && forall step :: step in steps ==> !Commits(step, uid, o)
    ensures !Finished(Run(w, steps), uid, o)
    decreases |steps|
  {
    hide Apply, Finished;
    if steps != [] {
      OnlyItsCommitFinishes(w, steps[0], uid, o);
      RunLeavesUnfinished(Apply(w, steps[0]), steps[1..], uid, o);
    }
  }

  /** A commit request finishes its operation exactly when it is reported as published. */
  lemma UnpublishedIsUnfinished(w: World, uid: Id, o: Id, lag: nat)
    requires !Finished(w, uid, o)
    ensures Finished(CommitStep(w, uid, o, lag), uid, o) <==> CommitOutcome(w, uid, o) == Published
  {
    hide CommitAllowed, PublishRows, RowFree, CounterHolds, CommitHead, CommitRows, AccessItems, AccessProjectionChanged;
    if uid in w.cells && o in w.cells[uid].ops && w.cells[uid].ops[o].Stored? && w.cells[uid].ops[o].stage.Primed? {
      var m, stage := w.cells[uid].ops[o].mutation, w.cells[uid].ops[o].stage;
      PublishRowsFrame(w, uid, m.control, stage.state, stage.previous, lag);
    }
  }

  /** Nothing of the operation's revision is in the log or current. */
  ghost predicate LeftNothing(w: World, uid: Id, o: Id) {
    uid in w.cells && o in w.cells[uid].ops && MutationPrepared(w.cells[uid].ops[o]).Some? ==>
      var version := MutationPrepared(w.cells[uid].ops[o]).value.control.version;
      && (forall i :: 0 <= i < |w.cells[uid].log| ==> w.cells[uid].log[i].control.version != version)
      && (IsReady(w.cells[uid]) ==> w.cells[uid].head.value.control != version)
  }

  /** The other clients may do anything except send this call's own commit. */
  ghost predicate LeaveToIt(others: Schedule, uid: Id, o: Id) {
    forall n, step :: step in others(n) ==> !Commits(step, uid, o)
  }

  datatype Mutated = Succeeded | NotPrepared | NotCommitted

  /**
   * `persistMutation`: prepare, write the objects, publish. Success is reported exactly when the operation
   * has committed, and its revision was then the current one; anything else leaves no revision behind.
   */
  method PersistMutation(t: Table, uid: Id, o: Id, lag: nat, others: Schedule) returns (result: Mutated)
    requires Sound(t.State()) && !Finished(t.State(), uid, o) && LeaveToIt(others, uid, o)
    modifies t
    ensures Reaches(old(t.State()), t.State()) && Sound(t.State())
    ensures result == Succeeded <==> Finished(t.State(), uid, o)
    ensures result == Succeeded ==> |t.cells[uid].log| > 0 && CurrentControl(t.cells[uid]) == t.cells[uid].ops[o].mutation.control
    ensures result != Succeeded ==> LeftNothing(t.State(), uid, o)
  {
    hide Apply, Run, CommitStep, CommitOutcome, Reaches, Sound, Finished, LeftNothing, LeaveToIt;
    ghost var start := t.State();
    NoSteps(start);
    Wait(t, others, 0, uid, o, start);
    Ask(t, PrepareOp(uid, o, lag), uid, o, start);
    if uid !in t.cells || o !in t.cells[uid].ops || !t.cells[uid].ops[o].Leased? {
      Settle(start, t.State(), uid, o);
      return NotPrepared;
    }
    Wait(t, others, 1, uid, o, start);
    Ask(t, StoreOp(uid, o), uid, o, start);
    var attempt, next := 0, 2;
    while attempt < ATTEMPTS
      invariant attempt <= ATTEMPTS && Reaches(start, t.State()) && !Finished(t.State(), uid, o)
    {
      Wait(t, others, next, uid, o, start);
      Ask(t, CountOp(uid, o), uid, o, start);
      Wait(t, others, next + 1, uid, o, start);
      Ask(t, PrimeOp(uid, o), uid, o, start);
      Wait(t, others, next + 2, uid, o, start);
      next := next + 3;
      ghost var before := t.State();
      var outcome := t.CompleteMutation(uid, o, lag);
      CommitIsStep(before, uid, o, lag);
      UnpublishedIsUnfinished(before, uid, o, lag);
      ReachesByStep(start, before, CommitOp(uid, o, lag));
      if outcome == Published {
        PublishedIsCurrent(before, uid, o, lag);
        ReachKeeps(start, t.State());
        return Succeeded;
      }
      if outcome != Contended {
        Settle(start, t.State(), uid, o);
        return NotCommitted;
      }
      attempt := attempt + 1;
    }
    Settle(start, t.State(), uid, o);
    result := NotCommitted;
  }

  /** The other clients' turn. */
  method Wait(t: Table, others: Schedule, n: nat, uid: Id, o: Id, ghost start: World)
    requires Reaches(start, t.State()) && !Finished(t.State(), uid, o) && LeaveToIt(others, uid, o)
    modifies t
    ensures Reaches(start, t.State()) && !Finished(t.State(), uid, o)
  {
    hide Run, Reaches, Finished;
    RunLeavesUnfinished(t.State(), others(n), uid, o);
    Turn(t, others(n), start);
  }

  /** A request of this call other than its commit. */
  method Ask(t: Table, step: Step, uid: Id, o: Id, ghost start: World)
    requires Reaches(start, t.State()) && !Finished(t.State(), uid, o) && !Commits(step, uid, o)
    modifies t
    ensures Reaches(start, t.State()) && !Finished(t.State(), uid, o)
  {
    hide Apply, Reaches, Finished;
    OnlyItsCommitFinishes(t.State(), step, uid, o);
    Send(t, step, start);
  }

  lemma Settle(w: World, v: World, uid: Id, o: Id)
    requires Sound(w) && Reaches(w, v) && !Finished(v, uid, o)
    ensures Sound(v) && LeftNothing(v, uid, o)
  {
    hide Sound, Reaches;
    ReachKeeps(w, v);
    if uid in v.cells && o in v.cells[uid].ops && MutationPrepared(v.cells[uid].ops[o]).Some? {
      UncommittedLeavesNothing(v, uid, o);
    }
  }

  // ---------------------------------------------------------------- rows that are finished with

  /** RETRYABLE and DELETED rows never change their state again. */
  predicate Final(workflow: Workflow) {
    workflow == Retryable || workflow == Deleted
  }

  ghost predicate RowIs(w: World, uid: Id, key: Key, workflow: Workflow) {
    uid in w.cells && HasRow(w.cells[uid], key, workflow)
  }

  lemma StepKeepsRow(w: World, step: Step, uid: Id, key: Key, workflow: Workflow)
    requires Sound(w) && RowIs(w, uid, key, workflow) && Final(workflow)
    ensures RowIs(Apply(w, step), uid, key, workflow)
  {
    hide CellInv, IndexInv, NamesOk, ClientCell, MaintenanceCell, CommitStep, PrepareStep, PublishBackfillStep, HasRow, Apply;
    StepIs(w, step);
    UidBelow(w, uid);
    if IsClientStep(step) {
      ClientKeepsRow(w, CellOf(w, step.uid), step, key, workflow);
    } else if IsMaintenanceStep(step) {
      MaintenanceKeepsRow(w, CellOf(w, step.uid), step, key, workflow);
    } else {
      match step
      case PrepareOp(u, o, lag) => PrepareKeepsRow(w, u, o, lag, uid, key, workflow);
      case CommitOp(u, o, lag) => CommitKeepsRow(w, u, o, lag, uid, key, workflow);
      case PublishBackfill(u, o, lag) => BackfillKeepsRow(w, u, o, lag, uid, key, workflow);
      case _ => OtherKeepsRow(w, step, uid, key, workflow);
    }
  }

  lemma ClientKeepsRow(w: World, c: Cell, step: Step, key: Key, workflow: Workflow)
    requires IsClientStep(step)
    ensures HasRow(ClientCell(w, c, step), key, workflow) == HasRow(c, key, workflow)
  {
    hide ClientCell, LocalsMove;
    ClientMovesLocals(w, c, step);
  }

  lemma MaintenanceKeepsRow(w: World, c: Cell, step: Step, key: Key, workflow: Workflow)
    requires IsMaintenanceStep(step) && Final(workflow)
    ensures HasRow(c, key, workflow) ==> HasRow(MaintenanceCell(w, c, step), key, workflow)
  {
  }

  lemma PrepareKeepsRow(w: World, u: Id, o: Id, lag: nat, uid: Id, key: Key, workflow: Workflow)
    requires RowIs(w, uid, key, workflow)
    ensures RowIs(PrepareStep(w, u, o, lag), uid, key, workflow)
  {
    hide NextControl, PrepareHead;
  }

  lemma CommitKeepsRow(w: World, u: Id, o: Id, lag: nat, uid: Id, key: Key, workflow: Workflow)
    requires RowIs(w, uid, key, workflow) && Final(workflow)
    ensures RowIs(CommitStep(w, u, o, lag), uid, key, workflow)
  {
    hide CommitAllowed, CommitMutation, PublishRows, RowFree, CounterHolds;
    var c := CellOf(w, u);
    if u in w.cells && o in c.ops && c.ops[o].Stored? && c.ops[o].stage.Primed? {
      var m, stage := c.ops[o].mutation, c.ops[o].stage;
      PublishRowsFrame(w, u, m.control, stage.state, stage.previous, lag);
      if u == uid && CommitAllowed(c, o, m, Resolves(w, u), stage.previous) {
        CommitCellKeepsRow(c, o, m, Resolves(w, u), stage.previous, NextSequence(stage.state), w.now + RETENTION_MILLISECONDS, key, workflow);
      }
    }
  }

  lemma CommitCellKeepsRow(c: Cell, o: Id, m: Mutation, resolves: bool, previous: Option<nat>, sequence: nat, due: nat, key: Key, workflow: Workflow)
    requires CommitAllowed(c, o, m, resolves, previous) && HasRow(c, key, workflow) && Final(workflow)
    ensures HasRow(CommitMutation(c, o, m, sequence, due), key, workflow)
  {
    hide TransactionSize, CommitHead, AccessProjectionChanged, AccessItems;
  }

  lemma BackfillKeepsRow(w: World, u: Id, o: Id, lag: nat, uid: Id, key: Key, workflow: Workflow)
    requires RowIs(w, uid, key, workflow)
    ensures RowIs(PublishBackfillStep(w, u, o, lag), uid, key, workflow)
  {
    hide PublishRows, RowFree, CounterHolds;
    var c := CellOf(w, u);
    if u in w.cells && o in c.ops && c.ops[o].Backfilling? && c.ops[o].backfillStage.Primed? {
      PublishRowsFrame(w, u, c.ops[o].record, c.ops[o].backfillStage.state, c.ops[o].backfillStage.previous, lag);
    }
  }

  lemma OtherKeepsRow(w: World, step: Step, uid: Id, key: Key, workflow: Workflow)
    requires RowIs(w, uid, key, workflow) && uid < w.nextId
    requires !IsCellStep(step) && !step.PrepareOp? && !step.CommitOp? && !step.PublishBackfill?
    requires step.StartCreate? ==> w.nextId != uid
    ensures RowIs(Apply(w, step), uid, key, workflow)
  {
    hide PrepareStep, CommitStep, PublishBackfillStep, HasRetryable;
  }

  /** A row that recovery or retention has finished with stays as it is, whatever runs. */
  lemma {:induction false} RunKeepsRow(w: World, steps: seq<Step>, uid: Id, key: Key, workflow: Workflow)
    requires Sound(w) && RowIs(w, uid, key, workflow) && Final(workflow)
    ensures RowIs(Run(w, steps), uid, key, workflow)
    decreases |steps|
  {
    hide Sound, Apply, RowIs;
    if steps != [] {
      StepIsSound(w, steps[0]);
      StepKeepsRow(w, steps[0], uid, key, workflow);
      RunKeepsRow(Apply(w, steps[0]), steps[1..], uid, key, workflow);
    }
  }

  lemma ReachKeepsRow(w: World, v: World, uid: Id, key: Key, workflow: Workflow)
    requires Sound(w) && Reaches(w, v) && RowIs(w, uid, key, workflow) && Final(workflow)
    ensures RowIs(v, uid, key, workflow)
  {
    hide Sound, Run, RowIs;
    var steps :| Run(w, steps) == v;
    RunKeepsRow(w, steps, uid, key, workflow);
  }

  // ---------------------------------------------------------------- recovery

  datatype Expired = Expired(uid: Id, key: Key, operation: Id)

  function OfOperation(items: seq<Expired>, o: Id): seq<Expired> {
    if items == [] then []
    else OfOperation(items[..|items| - 1], o) + (if items[|items| - 1].operation == o then [items[|items| - 1]] else [])
  }

  /** Each group is its operation's items in listed order. */
  ghost predicate GroupsAre(items: seq<Expired>, groups: map<Id, seq<Expired>>) {
    forall o :: OfOperation(items, o) == (if o in groups then groups[o] else []) && (o in groups ==> groups[o] != [])
  }

  lemma GroupsGrow(items: seq<Expired>, groups: map<Id, seq<Expired>>, item: Expired)
    requires GroupsAre(items, groups)
    ensures GroupsAre(items + [item], groups[item.operation := (if item.operation in groups then groups[item.operation] else []) + [item]])
  {
    forall o ensures OfOperation(items + [item], o) == OfOperation(items, o) + (if item.operation == o then [item] else []) {
      assert (items + [item])[..|items|] == items;
    }
    hide OfOperation;
  }

  /** The keys of the map, each once. */
  ghost predicate Ordered(order: seq<Id>, groups: map<Id, seq<Expired>>) {
    (forall o :: o in order <==> o in groups) && (forall i, j :: 0 <= i < j < |order| ==> order[i] != order[j])
  }

  lemma OrderStays(order: seq<Id>, groups: map<Id, seq<Expired>>, o: Id, group: seq<Expired>)
    requires Ordered(order, groups) && o in groups
    ensures Ordered(order, groups[o := group])
  {
  }

  lemma OrderGrows(order: seq<Id>, groups: map<Id, seq<Expired>>, o: Id, group: seq<Expired>)
    requires Ordered(order, groups) && o !in groups
    ensures Ordered(order + [o], groups[o := group])
  {
    var more := order + [o];
    assert forall x :: x in more <==> x in order || x == o;
    forall i, j | 0 <= i < j < |more| ensures more[i] != more[j] {
      assert more[i] == order[i] && order[i] in order;
    }
  }

  lemma NoGroups()
    ensures GroupsAre([], map[]) && Ordered([], map[])
  {
  }

  /** The handler's grouping: one group per operation, in order of first appearance. */
  method GroupByOperation(items: seq<Expired>) returns (order: seq<Id>, groups: map<Id, seq<Expired>>)
    ensures Ordered(order, groups)
    ensures GroupsAre(items, groups) && forall i :: 0 <= i < |items| ==> items[i].operation in groups
  {
    hide GroupsAre, Ordered, OfOperation;
    order, groups := [], map[];
    NoGroups();
    assert items[..0] == [];
    var i := 0;
    while i < |items|
      invariant 0 <= i <= |items| && GroupsAre(items[..i], groups)
      invariant Ordered(order, groups)
      invariant forall j :: 0 <= j < i ==> items[j].operation in groups
    {
      var o := items[i].operation;
      GroupsGrow(items[..i], groups, items[i]);
      assert items[..i + 1] == items[..i] + [items[i]];
      if o in groups {
        OrderStays(order, groups, o, groups[o] + [items[i]]);
        groups := groups[o := groups[o] + [items[i]]];
      } else {
        OrderGrows(order, groups, o, [] + [items[i]]);
        groups := groups[o := [] + [items[i]]];
        order := order + [o];
      }
      i := i + 1;
    }
    assert items[..i] == items;
  }

  /** One of the operation's rows is RETRYABLE. */
  ghost predicate SomeMarked(w: World, group: seq<Expired>) {
    exists i :: 0 <= i < |group| && RowIs(w, group[i].uid, group[i].key, Retryable)
  }

  /** What became of one expired operation. */
  datatype Recovery = NothingMarked | NoHead | Aborted | Thrown

  /** No other client acts. */
  ghost predicate Alone(others: Schedule) {
    forall n :: others(n) == []
  }

  ghost predicate SameHeads(w: World, v: World) {
    forall u :: u in w.cells ==> u in v.cells && v.cells[u].head == w.cells[u].head
  }

  /** Nothing has been marked yet, since none of the rows so far was PREPARED and expired. */
  ghost predicate NoneMarked(w: World, v: World, group: seq<Expired>, i: nat) {
    v == w.(nextId := v.nextId) && forall k :: 0 <= k < i && k < |group| ==> !Markable(w, group[k].uid, group[k].key)
  }

  lemma NoneMarkedYet(w: World, group: seq<Expired>)
    ensures SameHeads(w, w) && NoneMarked(w, w, group, 0) && Run(w, []) == w
  {
  }

  lemma MarksOne(w: World, v: World, group: seq<Expired>, i: nat)
    requires SameHeads(w, v) && i < |group|
    ensures var next := Apply(v, ControlPlane.Step.Retry(group[i].uid, group[i].key));
            SameHeads(w, next) && (NoneMarked(w, v, group, i) && !Markable(v, group[i].uid, group[i].key) ==> NoneMarked(w, next, group, i + 1))
    ensures NoneMarked(w, v, group, i) ==> Markable(v, group[i].uid, group[i].key) == Markable(w, group[i].uid, group[i].key)
  {
    hide Apply;
    MarkingKeepsHeads(v, group[i].uid, group[i].key);
  }

  lemma OthersRest(others: Schedule, n: nat, w: World)
    requires Alone(others)
    ensures Run(w, others(n)) == w
  {
  }

  /** The handler marks the operation's rows. */
  method MarkRows(t: Table, group: seq<Expired>, others: Schedule, at: nat) returns (marked: bool, next: nat)
    requires Sound(t.State())
    modifies t
    ensures Reaches(old(t.State()), t.State()) && Sound(t.State())
    ensures marked ==> SomeMarked(t.State(), group)
    ensures Alone(others) ==> SameHeads(old(t.State()), t.State())
    ensures Alone(others) ==> (marked <==> exists i :: 0 <= i < |group| && Markable(old(t.State()), group[i].uid, group[i].key))
  {
    hide Apply, Run, Reaches, Sound, RowIs, Markable, Alone, SameHeads, NoneMarked;
    ghost var start := t.State();
    NoSteps(start);
    NoneMarkedYet(start, group);
    next := at;
    marked := false;
    var i := 0;
    while i < |group|
      invariant 0 <= i <= |group| && Reaches(start, t.State())
      invariant marked ==> exists k :: 0 <= k < |group| && RowIs(t.State(), group[k].uid, group[k].key, Retryable)
      invariant Alone(others) ==> SameHeads(start, t.State())
      invariant Alone(others) ==> if marked then exists k :: 0 <= k < |group| && Markable(start, group[k].uid, group[k].key)
                                  else NoneMarked(start, t.State(), group, i)
    {
      ghost var prior := t.State();
      if Alone(others) { OthersRest(others, next, prior); MarksOne(start, prior, group, i); }
      Turn(t, others(next), start);
      ghost var before := t.State();
      var done := t.MarkRowRetryable(group[i].uid, group[i].key);
      ReachesByStep(start, before, ControlPlane.Step.Retry(group[i].uid, group[i].key));
      if done {
        MarkedIsRetryable(before, group[i].uid, group[i].key);
      } else if marked {
        NoSteps(before);
        ReachesByStep(before, before, ControlPlane.Step.Retry(group[i].uid, group[i].key));
        ReachesAgain(prior, before, t.State());
        ReachKeeps(start, prior);
        MarkStays(prior, t.State(), group);
      }
      marked := marked || done;
      next := next + 1;
      i := i + 1;
    }
    ReachKeeps(start, t.State());
    if Alone(others) && !marked { NothingWasMarkable(start, t.State(), group); }
  }

  lemma MarkStays(w: World, v: World, group: seq<Expired>)
    requires Sound(w) && Reaches(w, v) && SomeMarked(w, group)
    ensures SomeMarked(v, group)
  {
    hide Sound, Reaches, RowIs;
    var k :| 0 <= k < |group| && RowIs(w, group[k].uid, group[k].key, Retryable);
    ReachKeepsRow(w, v, group[k].uid, group[k].key, Retryable);
  }

  /**
   * One operation's recovery: its rows are marked, then the create it may belong to is aborted. A cancelled
   * abort throws: for a secret that has a revision that is the only outcome once a row is marked, and its HEAD
   * keeps the lease that the expired update holds.
   */
  method RecoverOperation(t: Table, o: Id, group: seq<Expired>, others: Schedule, at: nat) returns (result: Recovery, next: nat)
    requires group != [] && Sound(t.State())
    modifies t
    ensures Reaches(old(t.State()), t.State())
    ensures result != NothingMarked ==> SomeMarked(t.State(), group)
    ensures result == Aborted ==> group[0].uid in t.cells && t.cells[group[0].uid].head.None? && NameKey(t.cells[group[0].uid]) !in t.names
    ensures result == Thrown && group[0].uid in t.cells ==> !AbortAllowed(t.cells[group[0].uid], o, Resolves(t.State(), group[0].uid))
    ensures HasRevision(old(t.State()), group[0].uid) ==> result == NothingMarked || result == Thrown
    ensures Alone(others) ==> (result != NothingMarked <==> exists i :: 0 <= i < |group| && Markable(old(t.State()), group[i].uid, group[i].key))
    ensures Alone(others) && HasRevision(old(t.State()), group[0].uid) ==> SameHeads(old(t.State()), t.State())
  {
    hide Apply, Run, Reaches, AbortAllowed, Sound, HasRevision, Markable, Alone, SameHeads, SomeMarked;
    ghost var start := t.State();
    var marked;
    marked, next := MarkRows(t, group, others, at);
    if !marked { return NothingMarked, next; }
    var uid := group[0].uid;
    ghost var after := t.State();
    if Alone(others) { OthersRest(others, next, after); OthersRest(others, next + 1, after); }
    NoSteps(after);
    Turn(t, others(next), after);
    ghost var read := t.State();
    ReachesAgain(start, after, read);
    MarkStays(after, read, group);
    if HasRevision(start, uid) { LaterAbortIsRefused(start, read, uid, o); PresentWithRevision(read, uid); }
    next := next + 1;
    if uid !in t.cells || t.cells[uid].head.None? { return NoHead, next; }
    Turn(t, others(next), after);
    next := next + 1;
    ghost var before := t.State();
    ReachesAgain(start, after, before);
    if HasRevision(start, uid) { LaterAbortIsRefused(start, before, uid, o); PresentWithRevision(before, uid); }
    var aborted := t.AbortPreparedCreate(uid, o);
    AbortIsStep(before, uid, o);
    ReachesByStep(start, before, Abort(uid, o));
    ReachesByStep(after, before, Abort(uid, o));
    MarkStays(after, t.State(), group);
    result := if aborted then Aborted else Thrown;
  }

  lemma NothingWasMarkable(w: World, v: World, group: seq<Expired>)
    requires NoneMarked(w, v, group, |group|)
    ensures forall i :: 0 <= i < |group| ==> !Markable(w, group[i].uid, group[i].key)
  {
    hide Markable;
  }

  lemma MarkedIsRetryable(w: World, uid: Id, key: Key)
    requires Markable(w, uid, key)
    ensures RowIs(Apply(w, ControlPlane.Step.Retry(uid, key)), uid, key, Retryable)
  {
    hide CommitStep, PrepareStep, PublishBackfillStep, AbortStep, StartStep, StartCreateStep, StartByNameStep;
  }

  lemma AbortIsStep(w: World, uid: Id, o: Id)
    ensures Apply(w, Abort(uid, o)) == AbortStep(w, uid, o)
  {
    hide AbortStep;
  }

  lemma GroupsPresent(items: seq<Expired>, order: seq<Id>, groups: map<Id, seq<Expired>>)
    requires Ordered(order, groups) && GroupsAre(items, groups)
    ensures forall i :: 0 <= i < |order| ==> order[i] in groups && groups[order[i]] != []
  {
    hide OfOperation;
    forall i | 0 <= i < |order| ensures order[i] in groups { assert order[i] in order; }
  }

  /** Every operation that was not passed over has a RETRYABLE row. */
  ghost predicate ResultsHold(w: World, order: seq<Id>, groups: map<Id, seq<Expired>>, results: seq<Recovery>) {
    |results| <= |order| &&
    forall i :: 0 <= i < |results| && results[i] != NothingMarked ==> order[i] in groups && SomeMarked(w, groups[order[i]])
  }

  lemma ResultsStay(w: World, v: World, order: seq<Id>, groups: map<Id, seq<Expired>>, results: seq<Recovery>)
    requires Sound(w) && Reaches(w, v) && ResultsHold(w, order, groups, results)
    ensures ResultsHold(v, order, groups, results)
  {
    hide Sound, Reaches, RowIs;
    forall i | 0 <= i < |results| && results[i] != NothingMarked ensures SomeMarked(v, groups[order[i]]) {
      var group := groups[order[i]];
      var k :| 0 <= k < |group| && RowIs(w, group[k].uid, group[k].key, Retryable);
      ReachKeepsRow(w, v, group[k].uid, group[k].key, Retryable);
    }
  }

  /**
   * The handler: one group per operation, in order, until one throws. Whatever else happens meanwhile, every
   * operation it has not passed over keeps a RETRYABLE row, and so never commits.
   */
  method Recover(t: Table, items: seq<Expired>, others: Schedule)
      returns (finished: bool, order: seq<Id>, groups: map<Id, seq<Expired>>, results: seq<Recovery>)
    requires Sound(t.State())
    modifies t
    ensures Reaches(old(t.State()), t.State()) && Sound(t.State())
    ensures Ordered(order, groups) && GroupsAre(items, groups) && ResultsHold(t.State(), order, groups, results)
    ensures if finished then |results| == |order| && Thrown !in results else |results| > 0 && results[|results| - 1] == Thrown
  {
    hide Apply, Run, Reaches, Sound, Ordered, GroupsAre, ResultsHold, RowIs;
    ghost var start := t.State();
    NoSteps(start);
    ReachKeeps(start, start);
    order, groups := GroupByOperation(items);
    results := [];
    var next := 0;
    GroupsPresent(items, order, groups);
    NoResults(start, order, groups);
    while |results| < |order|
      invariant |results| <= |order| && Reaches(start, t.State()) && Sound(t.State()) && Thrown !in results
      invariant ResultsHold(t.State(), order, groups, results)
      decreases |order| - |results|
    {
      ghost var before, done := t.State(), results;
      var result;
      result, next := RecoverOperation(t, order[|results|], groups[order[|results|]], others, next);
      ReachesAgain(start, before, t.State());
      ReachKeeps(start, t.State());
      ResultsStay(before, t.State(), order, groups, results);
      OneMoreResult(t.State(), order, groups, results, result);
      results := results + [result];
      assert forall x :: x in results <==> x in done || x == result;
      if result == Thrown { return false, order, groups, results; }
    }
    finished := true;
  }

  lemma NoResults(w: World, order: seq<Id>, groups: map<Id, seq<Expired>>)
    ensures ResultsHold(w, order, groups, [])
  {
  }

  lemma OneMoreResult(w: World, order: seq<Id>, groups: map<Id, seq<Expired>>, results: seq<Recovery>, result: Recovery)
    requires ResultsHold(w, order, groups, results) && |results| < |order| && order[|results|] in groups
    requires result != NothingMarked ==> SomeMarked(w, groups[order[|results|]])
    ensures ResultsHold(w, order, groups, results + [result])
  {
    hide SomeMarked;
  }

  // ---------------------------------------------------------------- retention

  /** The live heads' objects are all there. */
  ghost predicate HeadsComplete(w: World) {
    forall uid :: uid in w.cells && IsReady(w.cells[uid]) ==> ReadyHeadOk(w.cells[uid], w.cells[uid].head.value)
  }

  lemma SoundHeadsComplete(w: World)
    requires Sound(w)
    ensures HeadsComplete(w)
  {
    hide CellInv, IndexInv, NamesOk, ReadyHeadOk;
    forall uid | uid in w.cells && IsReady(w.cells[uid]) ensures ReadyHeadOk(w.cells[uid], w.cells[uid].head.value) {
      CellFacts(w, uid);
      HeadOfCell(w, uid);
    }
  }

  /** A version whose row is DELETED is not what the head names. */
  lemma DeletedIsNotCurrent(w: World, uid: Id, key: Key)
    requires Sound(w) && RowIs(w, uid, key, Deleted)
    ensures !IsCurrent(key, w.cells[uid].head)
  {
    hide CellInv, IndexInv, NamesOk;
    HeadOfCell(w, uid);
    hide CellsOk;
  }

  lemma MarkedIsDeleted(w: World, uid: Id, job: Id, key: Key)
    requires uid in w.cells && job in w.cells[uid].jobs && w.cells[uid].jobs[job] == ObjectDeleted(key) && HasRow(w.cells[uid], key, Ready)
    ensures RowIs(Apply(w, MarkRow(uid, job)), uid, key, Deleted)
  {
    hide CommitStep, PrepareStep, PublishBackfillStep, AbortStep, StartStep, StartCreateStep, StartByNameStep;
  }

  ghost predicate AllDeleted(w: World, deleted: seq<(Id, Key)>) {
    forall i :: 0 <= i < |deleted| ==> RowIs(w, deleted[i].0, deleted[i].1, Deleted)
  }

  lemma DeletedStay(w: World, v: World, deleted: seq<(Id, Key)>)
    requires Sound(w) && Reaches(w, v) && AllDeleted(w, deleted)
    ensures AllDeleted(v, deleted)
  {
    hide Sound, Reaches, RowIs;
    forall i | 0 <= i < |deleted| ensures RowIs(v, deleted[i].0, deleted[i].1, Deleted) {
      ReachKeepsRow(w, v, deleted[i].0, deleted[i].1, Deleted);
    }
  }

  /**
   * The retention handler: due rows are listed, each head is read once, and what it does not name is
   * deleted and marked, however long ago that read was. Whatever it deleted, no head names it, and every
   * READY head still has its objects.
   */
  method Retain(t: Table, due: seq<(Id, Key)>, deletable: nat -> bool, others: Schedule) returns (finished: bool, deleted: seq<(Id, Key)>)
    requires Sound(t.State())
    modifies t
    ensures Reaches(old(t.State()), t.State()) && Sound(t.State()) && HeadsComplete(t.State())
    ensures AllDeleted(t.State(), deleted)
    ensures forall i :: 0 <= i < |deleted| ==> deleted[i] in due && deleted[i].0 in t.cells && !IsCurrent(deleted[i].1, t.cells[deleted[i].0].head)
  {
    hide Apply, Run, Reaches, Sound, HeadsComplete, RowIs, IsCurrent;
    ghost var start := t.State();
    NoSteps(start);
    deleted := [];
    var jobs: seq<Id>, next, i := [], 0, 0;
    while i < |due|
      invariant 0 <= i <= |due| && |jobs| == i && Reaches(start, t.State())
    {
      jobs := jobs + [t.nextId];
      Send(t, Due(due[i].0, due[i].1), start);
      i := i + 1;
    }
    ReachKeeps(start, t.State());
    finished, i := true, 0;
    while i < |due| && finished
      invariant 0 <= i <= |due| && Reaches(start, t.State()) && Sound(t.State())
      invariant AllDeleted(t.State(), deleted) && forall k :: 0 <= k < |deleted| ==> deleted[k] in due
      decreases |due| - i, finished
    {
      ghost var prior := t.State();
      NoSteps(prior);
      var uid, key, job := due[i].0, due[i].1, jobs[i];
      Turn(t, others(next), prior);
      Send(t, Check(uid, job), prior);
      if uid in t.cells && job in t.cells[uid].jobs && t.cells[uid].jobs[job] == Superseded(key) && deletable(i) {
        Turn(t, others(next + 1), prior);
        Send(t, DeleteVersion(uid, job), prior);
        Turn(t, others(next + 2), prior);
        if uid in t.cells && job in t.cells[uid].jobs && t.cells[uid].jobs[job] == ObjectDeleted(key) && HasRow(t.cells[uid], key, Ready) {
          MarkedIsDeleted(t.State(), uid, job, key);
          Send(t, MarkRow(uid, job), prior);
          DeletedStay(prior, t.State(), deleted);
          deleted := deleted + [due[i]];
        } else {
          finished := false;
          DeletedStay(prior, t.State(), deleted);
        }
      } else {
        DeletedStay(prior, t.State(), deleted);
      }
      ReachesAgain(start, prior, t.State());
      ReachKeeps(start, t.State());
      next := next + 3;
      i := i + 1;
    }
    SoundHeadsComplete(t.State());
    forall k | 0 <= k < |deleted| ensures deleted[k].0 in t.cells && !IsCurrent(deleted[k].1, t.cells[deleted[k].0].head) {
      RowPresent(t.State(), deleted[k].0, deleted[k].1, Deleted);
      DeletedIsNotCurrent(t.State(), deleted[k].0, deleted[k].1);
    }
  }

  lemma RowPresent(w: World, uid: Id, key: Key, workflow: Workflow)
    requires RowIs(w, uid, key, workflow)
    ensures uid in w.cells
  {
  }
}
