/**
 * Two conditions a caller can keep. If every request that changes an ACL names, in If-Match, an id that had
 * been issued when the request resolved the name, no commit replaces the ACL of a secret without a name, and
 * reads follow the ACL. If it names a revision that had been committed, names are identities as well.
 */
module AclDiscipline {
  import opened Domain
  import opened Revisions
  import opened RevisionInvariants
  import opened AccessInvariants
  import opened ControlPlane
  import opened ControlPlaneInvariants
  import opened IndexInvariants
  import opened NameInvariants
  import opened ControlPlaneTheorems
  import opened NameIdentity
  import opened SyncIndex

  /** What If-Match names: an id that has been issued, or a revision that has been committed. */
  datatype Rule = Issued | CommittedRevision

  /** The request gives the secret another ACL than the revision it replaces. */
  predicate ChangesAcl(request: Request) {
    request.ArchiveRequest? || (request.UpdateByName? && request.newAcl.Some?)
  }

  predicate ReplacesAcl(request: Request) {
    request.UpdateByName? && request.newAcl.Some? && request.newAcl.value != map[]
  }

  /** The revision named by If-Match has been committed. */
  ghost predicate Known(c: Cell, version: Id) {
    exists i :: 0 <= i < |c.log| && c.log[i].control.version == version
  }

  ghost predicate Allowed(c: Cell, n: Id, request: Request, rule: Rule) {
    match rule
    case Issued => ChangesAcl(request) ==> request.expected < n
    case CommittedRevision => ReplacesAcl(request) ==> Known(c, request.expected)
  }

  /** A request that resolves its name keeps the rule at that moment. */
  ghost predicate Keeps(w: World, step: Step, rule: Rule) {
    step.StartByName? ==>
      var found := LookupName(w, step.request.environment, step.request.secretId);
      found.Some? ==> Allowed(CellOf(w, found.value), w.nextId, step.request, rule)
  }

  ghost predicate RunKeeps(w: World, steps: seq<Step>, rule: Rule)
    decreases |steps|
  {
    steps == [] || (Keeps(w, steps[0], rule) && RunKeeps(Apply(w, steps[0]), steps[1..], rule))
  }

  // ---------------------------------------------------------------- the invariant

  /** The secret has its name, or its current revision grants nothing. */
  predicate Harmless(c: Cell, resolves: bool) {
    resolves || |c.log| == 0 || CurrentControl(c).acl == map[]
  }

  /**
   * While the head carries the revision a request names: an ACL change finds the secret named or without
   * grants, and an ACL replacement that names a committed revision finds it named.
   */
  ghost predicate RequestOk(c: Cell, resolves: bool, n: Id, op: Op, rule: Rule) {
    RequestOf(op).Some? ==>
      var request := RequestOf(op).value;
      match rule
      case Issued => ChangesAcl(request) ==> request.expected < n && (Carries(c, request.expected) ==> Harmless(c, resolves))
      case CommittedRevision =>
        ReplacesAcl(request) ==> Known(c, request.expected) && (Carries(c, request.expected) ==> resolves)
  }

  ghost predicate RequestsOk(c: Cell, resolves: bool, n: Id, rule: Rule) {
    forall o :: o in c.ops ==> RequestOk(c, resolves, n, c.ops[o], rule)
  }

  /** No pending ACL change names this revision. */
  ghost predicate Unforeseen(c: Cell, version: Id) {
    forall o :: o in c.ops && RequestOf(c.ops[o]).Some? && ChangesAcl(RequestOf(c.ops[o]).value) ==>
      RequestOf(c.ops[o]).value.expected != version
  }

  /** What the lease holder of a secret without its name is about to commit. */
  ghost predicate HolderNamed(c: Cell, resolves: bool, rule: Rule) {
    c.head.Some? && c.head.value.lease.Some? && c.head.value.lease.value.owner in c.ops
    && InFlight(c.ops[c.head.value.lease.value.owner]) && !resolves ==>
      var m := c.ops[c.head.value.lease.value.owner].mutation;
      match rule
      case Issued => !Rewrites(m) && Unforeseen(c, m.control.version)
      case CommittedRevision => m.control.acl == map[]
  }

  ghost predicate Disciplined(c: Cell, resolves: bool, n: Id, rule: Rule) {
    RequestsOk(c, resolves, n, rule) && HolderNamed(c, resolves, rule)
  }

  ghost predicate DisciplinedAll(w: World, rule: Rule) {
    forall uid :: uid in w.cells ==> Disciplined(w.cells[uid], Resolves(w, uid), w.nextId, rule)
  }

  lemma DisciplinedLater(c: Cell, resolves: bool, n: Id, more: Id, rule: Rule)
    requires Disciplined(c, resolves, n, rule) && n <= more
    ensures Disciplined(c, resolves, more, rule)
  {
    hide ReplacesAcl, ChangesAcl, Harmless, Known;
    forall x | x in c.ops ensures RequestOk(c, resolves, more, c.ops[x], rule) {
      assert RequestOk(c, resolves, n, c.ops[x], rule);
    }
  }

  // ---------------------------------------------------------------- one secret

  /** Clients keep or drop their requests, and keep or drop their mutations. */
  ghost predicate RequestsKept(c: Cell, d: Cell) {
    && d.log == c.log && c.head.Some? == d.head.Some?
    && (c.head.Some? ==> d.head.value.control == c.head.value.control
                         && (d.head.value.lease == c.head.value.lease || d.head.value.lease.None?))
    && (forall x :: x in d.ops ==>
          && (RequestOf(d.ops[x]).Some? ==> x in c.ops && RequestOf(c.ops[x]) == RequestOf(d.ops[x]))
          && (InFlight(d.ops[x]) ==> x in c.ops && InFlight(c.ops[x]) && c.ops[x].mutation == d.ops[x].mutation))
  }

  lemma KeptIsDisciplined(c: Cell, d: Cell, resolves: bool, n: Id, rule: Rule)
    requires Disciplined(c, resolves, n, rule) && RequestsKept(c, d)
    ensures Disciplined(d, resolves, n, rule)
  {
    hide ReplacesAcl, ChangesAcl, Rewrites;
    forall x | x in d.ops ensures RequestOk(d, resolves, n, d.ops[x], rule) {
      if RequestOf(d.ops[x]).Some? { assert RequestOk(c, resolves, n, c.ops[x], rule); }
    }
  }

  lemma ClientKeepsRequests(w: World, c: Cell, step: Step)
    requires IsClientStep(step)
    ensures RequestsKept(c, ClientCell(w, c, step))
  {
    hide ClientCell, Mover, RequestOf;
    ClientMovesLocals(w, c, step);
  }

  lemma MaintenanceKeepsRequests(w: World, c: Cell, step: Step)
    requires IsMaintenanceStep(step)
    ensures RequestsKept(c, MaintenanceCell(w, c, step))
  {
    hide MaintenanceCell;
    MaintenanceIsSame(w, c, step);
  }

  lemma FailureKeepsRequests(c: Cell, o: Id, contention: bool)
    requires o in c.ops && (c.ops[o].Stored? || c.ops[o].Backfilling?)
    ensures RequestsKept(c, AfterFailure(c, o, contention))
  {
  }

  lemma BackfillKeepsRequests(c: Cell, o: Id, sequence: nat)
    requires c.head.Some?
    ensures RequestsKept(c, CommitBackfill(c, o, sequence))
  {
  }

  lemma BeginIsDisciplined(c: Cell, o: Id, request: Request, resolves: bool, n: Id, rule: Rule)
    requires Disciplined(c, resolves, n, rule) && Allowed(c, n, request, rule)
    requires resolves || !ChangesAcl(request)
    ensures Disciplined(Begin(c, o, request), resolves, n, rule)
  {
    var d := Begin(c, o, request);
    if d != c {
      forall x | x in d.ops ensures RequestOk(d, resolves, n, d.ops[x], rule) {
        if x != o { assert RequestOk(c, resolves, n, c.ops[x], rule); }
      }
    }
  }

  /** A committed revision is not one whose rows are still absent. */
  lemma KnownHasRow(c: Cell, version: Id, n: Id)
    requires CellInv(c, n) && Known(c, version)
    ensures ControlKey(version) in c.rows && Settled(c.rows[ControlKey(version)])
  {
    var i :| 0 <= i < |c.log| && c.log[i].control.version == version;
    assert SettledKey(c, ControlKey(c.log[i].control.version));
  }

  /** The current ACL is empty, or the secret has its name. */
  predicate NamedAcl(c: Cell, resolves: bool) {
    |c.log| > 0 && CurrentControl(c).acl != map[] ==> resolves
  }

  lemma PrepareIsDisciplined(c: Cell, o: Id, payload: Id, nameFree: bool, now: nat, expires: nat,
                             resolves: bool, after: bool, n: Id, rule: Rule)
    requires CellInv(c, n) && Disciplined(c, resolves, n, rule) && (rule.CommittedRevision? ==> NamedAcl(c, resolves))
    requires var d := Prepare(c, o, n, payload, nameFree, now, expires);
             after == (resolves || (c.head.None? && d.head.Some?))
    ensures Disciplined(Prepare(c, o, n, payload, nameFree, now, expires), after, n, rule)
  {
    hide CellInv, Disciplined, NamedAcl, PrepareHead, WithRows, PrepareAllowed;
    var mutation := MutationOf(c, o, n, payload, expires);
    if mutation.Some? {
      if PrepareAllowed(c, mutation.value, nameFree, now) {
        PrepareSucceedsDisciplined(c, o, mutation.value, payload, nameFree, now, expires, resolves, n, rule);
        PreparedHead(c, o, mutation.value, nameFree, now);
      } else {
        StopKeepsRequests(c, o);
        KeptIsDisciplined(c, c.(ops := c.ops[o := Stopped(None)]), resolves, n, rule);
      }
    }
  }

  lemma StopKeepsRequests(c: Cell, o: Id)
    requires o in c.ops
    ensures RequestsKept(c, c.(ops := c.ops[o := Stopped(None)]))
  {
  }

  lemma PreparedHead(c: Cell, o: Id, m: Mutation, nameFree: bool, now: nat)
    requires PrepareAllowed(c, m, nameFree, now)
    ensures m.base.None? <==> c.head.None?
  {
  }

  lemma PrepareSucceedsDisciplined(c: Cell, o: Id, m: Mutation, payload: Id, nameFree: bool, now: nat, expires: nat,
                                   resolves: bool, n: Id, rule: Rule)
    requires CellInv(c, n) && Disciplined(c, resolves, n, rule) && (rule.CommittedRevision? ==> NamedAcl(c, resolves))
    requires MutationOf(c, o, n, payload, expires) == Some(m) && PrepareAllowed(c, m, nameFree, now)
    ensures Disciplined(c.(head := Some(PrepareHead(c, o, m)), rows := WithRows(c, o, m), ops := c.ops[o := Leased(m)]),
                        resolves || m.base.None?, n, rule)
  {
    hide CellInv, NamedAcl, WithRows, RequestOk, Rewrites;
    var d := c.(head := Some(PrepareHead(c, o, m)), rows := WithRows(c, o, m), ops := c.ops[o := Leased(m)]);
    forall x | x in d.ops ensures RequestOk(d, resolves || m.base.None?, n, d.ops[x], rule) {
      if x != o { OtherRequestStays(c, d, x, m, resolves, n, rule); } else { LeasedHasNoRequest(d, resolves || m.base.None?, n, m, rule); }
    }
    NewVersionIsUnforeseen(c, d, o, m, resolves, n, rule);
    HolderIsNamed(c, o, m, payload, expires, resolves, n, rule);
  }

  lemma LeasedHasNoRequest(d: Cell, resolves: bool, n: Id, m: Mutation, rule: Rule)
    ensures RequestOk(d, resolves, n, Leased(m), rule)
  {
  }

  lemma NewVersionIsUnforeseen(c: Cell, d: Cell, o: Id, m: Mutation, resolves: bool, n: Id, rule: Rule)
    requires RequestsOk(c, resolves, n, rule) && m.control.version == n && d.ops == c.ops[o := Leased(m)]
    ensures rule.Issued? ==> Unforeseen(d, m.control.version)
  {
    hide ChangesAcl;
    forall x | x in d.ops && x != o ensures d.ops[x] == c.ops[x] && RequestOk(c, resolves, n, c.ops[x], rule) {
    }
  }

  lemma OtherRequestStays(c: Cell, d: Cell, x: Id, m: Mutation, resolves: bool, n: Id, rule: Rule)
    requires CellInv(c, n) && x in c.ops && RequestsOk(c, resolves, n, rule) && RowsAbsent(c, m) && d.log == c.log && d.head.Some?
    requires d.head.value.control == if m.base.Some? && c.head.Some? then c.head.value.control else m.control.version
    requires m.base.Some? ==> c.head.Some?
    ensures RequestOk(d, resolves || m.base.None?, n, c.ops[x], rule)
  {
    hide CellInv;
    assert RequestOk(c, resolves, n, c.ops[x], rule);
    if RequestOf(c.ops[x]).Some? && rule.CommittedRevision? && ReplacesAcl(RequestOf(c.ops[x]).value) {
      KnownHasRow(c, RequestOf(c.ops[x]).value.expected, n);
    }
  }

  /** An ACL comes from the request, whose If-Match the head carries, or from the current revision. */
  lemma HolderIsNamed(c: Cell, o: Id, m: Mutation, payload: Id, expires: nat, resolves: bool, n: Id, rule: Rule)
    requires CellInv(c, n) && RequestsOk(c, resolves, n, rule) && (rule.CommittedRevision? ==> NamedAcl(c, resolves))
    requires MutationOf(c, o, n, payload, expires) == Some(m)
    requires m.base.Some? ==> c.head.Some? && c.head.value.control == m.base.value.head.control
    ensures m.base.Some? && !resolves ==> if rule.Issued? then !Rewrites(m) else m.control.acl == map[]
    ensures m.control.version == n
  {
    assert OpOk(c, o, c.ops[o]) && RequestOk(c, resolves, n, c.ops[o], rule);
    if m.base.Some? { BaseIsCurrent(c, m.base.value, n); }
    hide CellInv;
  }

  lemma CommitIsDisciplined(c: Cell, o: Id, sequence: nat, due: nat, resolves: bool, n: Id, rule: Rule)
    requires CellInv(c, n) && Disciplined(c, resolves, n, rule) && o in c.ops && c.ops[o].Stored?
    requires c.head.Some? && c.head.value.lease.Some? && c.head.value.lease.value.owner == o
    ensures Disciplined(CommitMutation(c, o, c.ops[o].mutation, sequence, due), resolves && !c.ops[o].mutation.archive, n, rule)
  {
    hide CommitRows, AccessProjectionChanged, AccessItems, CellInv, ChangesAcl, Rewrites, Known;
    var m := c.ops[o].mutation;
    var d := CommitMutation(c, o, m, sequence, due);
    assert CurrentControl(d) == m.control;
    ArchiveHasNoAcl(c, o, n);
    forall x | x in d.ops ensures RequestOk(d, resolves && !m.archive, n, d.ops[x], rule) {
      if x != o && RequestOf(c.ops[x]).Some? {
        assert RequestOk(c, resolves, n, c.ops[x], rule);
        if rule.CommittedRevision? && ReplacesAcl(RequestOf(c.ops[x]).value) {
          KnownIsNotNew(c, o, RequestOf(c.ops[x]).value.expected, n);
          KnownStays(c, d, RequestOf(c.ops[x]).value.expected);
        }
      }
    }
  }

  lemma KnownIsNotNew(c: Cell, o: Id, version: Id, n: Id)
    requires CellInv(c, n) && o in c.ops && c.ops[o].Stored? && Known(c, version)
    ensures version != c.ops[o].mutation.control.version
  {
    KnownHasRow(c, version, n);
    assert OpOk(c, o, c.ops[o]);
    hide CellInv;
  }

  lemma KnownStays(c: Cell, d: Cell, version: Id)
    requires Known(c, version) && c.log <= d.log
    ensures Known(d, version)
  {
    var i :| 0 <= i < |c.log| && c.log[i].control.version == version;
    assert d.log[i] == c.log[i];
  }

  lemma AbortIsDisciplined(c: Cell, o: Id, resolves: bool, n: Id, rule: Rule)
    requires Disciplined(c, resolves, n, rule) && AbortAllowed(c, o, resolves)
    ensures Disciplined(AbortCreate(c, o, resolves), false, n, rule)
  {
    hide HasRetryable, ChangesAcl, Known;
    var d := AbortCreate(c, o, resolves);
    forall x | x in d.ops ensures RequestOk(d, false, n, d.ops[x], rule) {
      assert RequestOk(c, resolves, n, c.ops[x], rule);
      if RequestOf(c.ops[x]).Some? && rule.CommittedRevision? && ReplacesAcl(RequestOf(c.ops[x]).value) {
        KnownStays(c, d, RequestOf(c.ops[x]).value.expected);
      }
    }
  }

  // ---------------------------------------------------------------- the whole table

  lemma DisciplinedFacts(w: World, uid: Id, rule: Rule)
    requires DisciplinedAll(w, rule) && uid in w.cells
    ensures Disciplined(w.cells[uid], Resolves(w, uid), w.nextId, rule)
  {
    hide Disciplined;
  }

  lemma OneCellDisciplined(w: World, v: World, uid: Id, rule: Rule)
    requires NamesOk(w) && DisciplinedAll(w, rule) && OneCell(w, v, uid)
    requires v.names == w.names || (v.names == w.names - {NameKey(w.cells[uid])} && Resolves(w, uid))
             || (v.names == w.names[NameKey(w.cells[uid]) := uid] && NameKey(w.cells[uid]) !in w.names)
    requires Disciplined(v.cells[uid], Resolves(v, uid), w.nextId, rule) && w.nextId <= v.nextId
    ensures DisciplinedAll(v, rule)
  {
    hide Disciplined;
    forall u | u in v.cells ensures Disciplined(v.cells[u], Resolves(v, u), v.nextId, rule) {
      if u != uid { assert Resolves(v, u) == Resolves(w, u); }
      DisciplinedLater(v.cells[u], Resolves(v, u), w.nextId, v.nextId, rule);
    }
  }

  lemma SameCellsDisciplined(w: World, v: World, rule: Rule)
    requires DisciplinedAll(w, rule) && v.cells == w.cells && v.names == w.names && w.nextId <= v.nextId
    ensures DisciplinedAll(v, rule)
  {
    hide Disciplined;
    forall u | u in v.cells ensures Disciplined(v.cells[u], Resolves(v, u), v.nextId, rule) {
      assert Resolves(v, u) == Resolves(w, u);
      DisciplinedLater(v.cells[u], Resolves(v, u), w.nextId, v.nextId, rule);
    }
  }

  lemma CellStepDisciplined(w: World, step: Step, rule: Rule)
    requires NamesOk(w) && DisciplinedAll(w, rule) && IsCellStep(step) && step.uid in w.cells
    ensures DisciplinedAll(Apply(w, step), rule)
  {
    hide Disciplined, DisciplinedAll, ClientCell, MaintenanceCell, NamesOk, Resolves, OneCell, RequestsKept;
    var c := w.cells[step.uid];
    hide IsClientStep, IsMaintenanceStep;
    DisciplinedFacts(w, step.uid, rule);
    if IsClientStep(step) { ClientKeepsRequests(w, c, step); } else { MaintenanceKeepsRequests(w, c, step); }
    KeptIsDisciplined(c, CellResult(w, c, step), Resolves(w, step.uid), w.nextId, rule);
    CellStepIsLocal(w, step);
    OneCellDisciplined(w, Apply(w, step), step.uid, rule);
  }

  lemma StartDisciplined(w: World, uid: Id, request: Request, rule: Rule)
    requires NamesOk(w) && DisciplinedAll(w, rule) && uid in w.cells
    requires Allowed(w.cells[uid], w.nextId, request, rule) && (Resolves(w, uid) || !ChangesAcl(request))
    ensures DisciplinedAll(StartStep(w, uid, request), rule)
  {
    hide Disciplined, DisciplinedAll, NamesOk, Allowed, ChangesAcl, StartStep, OneCell, Begin, Resolves;
    DisciplinedFacts(w, uid, rule);
    BeginIsDisciplined(w.cells[uid], w.nextId, request, Resolves(w, uid), w.nextId, rule);
    StartIsLocal(w, uid, request);
    OneCellDisciplined(w, StartStep(w, uid, request), uid, rule);
  }

  lemma StartCreateDisciplined(w: World, request: Request, rule: Rule)
    requires CellsOk(w) && NamesOk(w) && DisciplinedAll(w, rule)
    ensures DisciplinedAll(StartCreateStep(w, request), rule)
  {
    if request.CreateRequest? {
      var v := StartCreateStep(w, request);
      NextIdIsNew(w);
      NewCellDisciplined(request, w.nextId + 1, v.nextId, rule);
      hide Disciplined, CellsOk;
      forall u | u in v.cells ensures Disciplined(v.cells[u], Resolves(v, u), v.nextId, rule) {
        assert !Resolves(v, w.nextId);
        if u != w.nextId {
          assert Resolves(v, u) == Resolves(w, u);
          DisciplinedLater(v.cells[u], Resolves(v, u), w.nextId, v.nextId, rule);
        }
      }
    }
  }

  lemma NewCellDisciplined(request: Request, o: Id, n: Id, rule: Rule)
    requires request.CreateRequest?
    ensures Disciplined(Begin(Cell(request.environment, request.secretId, None, map[], map[], map[], map[], map[], []), o, request),
                        false, n, rule)
  {
  }

  lemma PrepareWorldDisciplined(w: World, uid: Id, o: Id, lag: nat, rule: Rule)
    requires CellsOk(w) && NamesOk(w) && DisciplinedAll(w, rule) && uid in w.cells
    requires rule.CommittedRevision? ==> Identity(w)
    ensures DisciplinedAll(PrepareStep(w, uid, o, lag), rule)
  {
    hide CellInv, Disciplined, Prepare;
    var v, c := PrepareStep(w, uid, o, lag), w.cells[uid];
    var expires := w.now - (if lag <= w.now then lag else w.now) + LEASE_MILLISECONDS;
    CellFacts(w, uid);
    if rule.CommittedRevision? { assert Identified(w, uid); }
    DisciplinedFacts(w, uid, rule);
    PrepareFrame(c, o, w.nextId, w.nextId + 1, NameKey(c) !in w.names, w.now, expires);
    PrepareCreatesWhenFree(c, o, w.nextId, w.nextId + 1, NameKey(c) !in w.names, w.now, expires);
    PrepareIsDisciplined(c, o, w.nextId + 1, NameKey(c) !in w.names, w.now, expires, Resolves(w, uid), Resolves(v, uid), w.nextId, rule);
    OneCellDisciplined(w, v, uid, rule);
  }

  lemma CommitNeedsLease(c: Cell, o: Id, m: Mutation, resolves: bool, previous: Option<nat>)
    requires CommitAllowed(c, o, m, resolves, previous)
    ensures c.head.Some? && c.head.value.lease.Some? && c.head.value.lease.value.owner == o
  {
    hide TransactionSize, HasRow;
  }

  lemma CommitWorldDisciplined(w: World, uid: Id, o: Id, lag: nat, rule: Rule)
    requires CellsOk(w) && NamesOk(w) && DisciplinedAll(w, rule) && uid in w.cells
    ensures DisciplinedAll(CommitStep(w, uid, o, lag), rule)
  {
    hide CellInv, Disciplined, CommitMutation, PublishRows, AfterFailure, RowFree, CounterHolds, CommitAllowed, CellsOk, NamesOk, DisciplinedAll;
    var c := w.cells[uid];
    DisciplinedFacts(w, uid, rule);
    if o in c.ops && c.ops[o].Stored? && c.ops[o].stage.Primed? {
      var v := CommitStep(w, uid, o, lag);
      var m, state, previous := c.ops[o].mutation, c.ops[o].stage.state, c.ops[o].stage.previous;
      var rest := CommitAllowed(c, o, m, Resolves(w, uid), previous) && RowFree(w, uid, m.control, state);
      if CounterHolds(w, m.control.environment, state) && rest {
        CellFacts(w, uid);
        PublishRowsFrame(w, uid, m.control, state, previous, lag);
        CommitFrame(c, o, m, Resolves(w, uid), previous, NextSequence(state), w.now + RETENTION_MILLISECONDS);
        ArchiveNeedsName(c, o, m, Resolves(w, uid), previous);
        CommitNeedsLease(c, o, m, Resolves(w, uid), previous);
        CommitIsDisciplined(c, o, NextSequence(state), w.now + RETENTION_MILLISECONDS, Resolves(w, uid), w.nextId, rule);
        OneCellDisciplined(w, v, uid, rule);
      } else {
        FailureWorldDisciplined(w, uid, o, rest, rule);
      }
    } else {
      SameCellsDisciplined(w, w, rule);
    }
  }

  lemma FailureWorldDisciplined(w: World, uid: Id, o: Id, contention: bool, rule: Rule)
    requires NamesOk(w) && DisciplinedAll(w, rule) && uid in w.cells && o in w.cells[uid].ops
    requires w.cells[uid].ops[o].Stored? || w.cells[uid].ops[o].Backfilling?
    ensures DisciplinedAll(OnCell(w, uid, AfterFailure(w.cells[uid], o, contention)), rule)
  {
    hide Disciplined, AfterFailure, NamesOk, DisciplinedAll, RequestsKept;
    DisciplinedFacts(w, uid, rule);
    FailureName(w.cells[uid], o, contention);
    FailureKeepsRequests(w.cells[uid], o, contention);
    KeptIsDisciplined(w.cells[uid], AfterFailure(w.cells[uid], o, contention), Resolves(w, uid), w.nextId, rule);
    OneCellDisciplined(w, OnCell(w, uid, AfterFailure(w.cells[uid], o, contention)), uid, rule);
  }

  lemma BackfillWorldDisciplined(w: World, uid: Id, o: Id, lag: nat, rule: Rule)
    requires NamesOk(w) && DisciplinedAll(w, rule) && uid in w.cells
    ensures DisciplinedAll(PublishBackfillStep(w, uid, o, lag), rule)
  {
    hide Disciplined, PublishRows, AfterFailure, RowFree, CounterHolds, CommitBackfill, NamesOk, DisciplinedAll, RequestsKept;
    var c := w.cells[uid];
    DisciplinedFacts(w, uid, rule);
    if o in c.ops && c.ops[o].Backfilling? && c.ops[o].backfillStage.Primed? {
      var v := PublishBackfillStep(w, uid, o, lag);
      var record, stage := c.ops[o].record, c.ops[o].backfillStage;
      var rest := BackfillAllowed(c, record) && RowFree(w, uid, record, stage.state);
      if CounterHolds(w, record.environment, stage.state) && rest {
        PublishRowsFrame(w, uid, record, stage.state, stage.previous, lag);
        BackfillKeepsRequests(c, o, NextSequence(stage.state));
        KeptIsDisciplined(c, CommitBackfill(c, o, NextSequence(stage.state)), Resolves(w, uid), w.nextId, rule);
        BackfillFrame(c, o, NextSequence(stage.state));
        OneCellDisciplined(w, v, uid, rule);
      } else {
        FailureWorldDisciplined(w, uid, o, rest, rule);
      }
    } else {
      SameCellsDisciplined(w, w, rule);
    }
  }

  lemma BackfillFrame(c: Cell, o: Id, sequence: nat)
    requires c.head.Some?
    ensures NameKey(CommitBackfill(c, o, sequence)) == NameKey(c)
  {
  }

  lemma AbortWorldDisciplined(w: World, uid: Id, o: Id, rule: Rule)
    requires NamesOk(w) && DisciplinedAll(w, rule) && uid in w.cells
    ensures DisciplinedAll(AbortStep(w, uid, o), rule)
  {
    hide Disciplined, HasRetryable;
    var v, c := AbortStep(w, uid, o), w.cells[uid];
    if AbortAllowed(c, o, Resolves(w, uid)) {
      DisciplinedFacts(w, uid, rule);
      AbortIsDisciplined(c, o, Resolves(w, uid), w.nextId, rule);
      OneCellDisciplined(w, v, uid, rule);
    }
  }

  lemma StepKeepsDisciplined(w: World, step: Step, rule: Rule)
    requires CellsOk(w) && NamesOk(w) && DisciplinedAll(w, rule) && Keeps(w, step, rule)
    requires rule.CommittedRevision? ==> Identity(w)
    ensures DisciplinedAll(Apply(w, step), rule)
  {
    hide CellsOk, CellInv, Identity, Disciplined, DisciplinedAll, Allowed, ClientCell, MaintenanceCell, CommitStep, PrepareStep, PublishBackfillStep,
         AbortStep, StartCreateStep, ChangesAcl;
    if HasUid(step) && CellUid(step) !in w.cells {
      UnknownUid(w, step);
      SameCellsDisciplined(w, Apply(w, step), rule);
    } else if IsCellStep(step) {
      CellStepDisciplined(w, step, rule);
    } else {
      match step
      case StartCreate(request) => StartCreateDisciplined(w, request, rule);
      case StartByName(request) =>
        var found := LookupName(w, request.environment, request.secretId);
        if (request.UpdateByName? || request.ArchiveRequest?) && found.Some? {
          NamedSecret(w, request.environment, request.secretId);
          StartDisciplined(w, found.value, request, rule);
        } else {
          SameCellsDisciplined(w, Apply(w, step), rule);
        }
      case StartByUid(uid, request) =>
        if request.UpdateByUid? {
          NotReplacing(w.cells[uid], w.nextId, request, rule);
          StartDisciplined(w, uid, request, rule);
        }
      case PrepareOp(uid, o, lag) => PrepareWorldDisciplined(w, uid, o, lag, rule);
      case CommitOp(uid, o, lag) => CommitWorldDisciplined(w, uid, o, lag, rule);
      case PublishBackfill(uid, o, lag) => BackfillWorldDisciplined(w, uid, o, lag, rule);
      case Abort(uid, o) => AbortWorldDisciplined(w, uid, o, rule);
      case _ => SameCellsDisciplined(w, Apply(w, step), rule);
    }
  }

  lemma NamedSecret(w: World, environment: Name, secretId: Name)
    requires NamesOk(w) && (environment, secretId) in w.names
    ensures w.names[(environment, secretId)] in w.cells && Resolves(w, w.names[(environment, secretId)])
  {
  }

  lemma NotReplacing(c: Cell, n: Id, request: Request, rule: Rule)
    requires request.UpdateByUid?
    ensures !ChangesAcl(request) && Allowed(c, n, request, rule)
  {
  }

  // ---------------------------------------------------------------- every run

  /** The lease holder of a secret without its name replaces no grant, or commits none. */
  lemma DisciplineForbids(w: World, step: Step, rule: Rule)
    requires DisciplinedAll(w, rule)
    ensures if rule.Issued? then !RewritesUnnamed(w, step) else !GrantsUnnamed(w, step)
  {
    if step.CommitOp? && Commits(w, step.uid, step.op) {
      hide CounterHolds, RowFree, TransactionSize, RequestsOk, Unforeseen;
      DisciplinedFacts(w, step.uid, rule);
    }
  }

  ghost predicate Forbids(w: World, steps: seq<Step>, rule: Rule) {
    if rule.Issued? then NeverRewritesUnnamed(w, steps) else NeverGrantsUnnamed(w, steps)
  }

  lemma {:induction false} DisciplineFrom(w: World, steps: seq<Step>, rule: Rule)
    requires Sound(w) && DisciplinedAll(w, rule) && RunKeeps(w, steps, rule)
    requires rule.CommittedRevision? ==> Identity(w)
    ensures Forbids(w, steps, rule) && Sound(Run(w, steps)) && DisciplinedAll(Run(w, steps), rule)
    decreases |steps|
  {
    hide CellsOk, NamesOk, IndexInv, Identity, DisciplinedAll, Keeps, GrantsUnnamed, RewritesUnnamed, Apply;
    if steps != [] {
      DisciplineForbids(w, steps[0], rule);
      StepIsSound(w, steps[0]);
      if rule.CommittedRevision? { StepKeepsIdentity(w, steps[0]); }
      StepKeepsDisciplined(w, steps[0], rule);
      DisciplineFrom(Apply(w, steps[0]), steps[1..], rule);
    }
  }

  lemma GenesisDisciplined(rule: Rule)
    ensures Sound(Genesis) && Identity(Genesis) && DisciplinedAll(Genesis, rule)
  {
    hide CellInv, Identified, Disciplined;
    GenesisSound();
  }

  /** A run that keeps the rule never replaces, or never makes, a grant under a lost name. */
  lemma DisciplineSuffices(steps: seq<Step>, rule: Rule)
    requires RunKeeps(Genesis, steps, rule)
    ensures Forbids(Genesis, steps, rule)
  {
    GenesisDisciplined(rule);
    hide Sound, Identity, DisciplinedAll, RunKeeps, Forbids;
    DisciplineFrom(Genesis, steps, rule);
  }
}
