/**
 * Progress: a client that holds the lease commits if it is left alone, and a client that starts afresh
 * gets the lease as soon as its last owner has none or has let it expire.
 */
module WriterProgress {
  import opened Domain
  import opened Revisions
  import opened RevisionInvariants
  import opened AccessInvariants
  import opened ControlPlane
  import opened ControlPlaneInvariants
  import opened IndexInvariants
  import opened NameInvariants
  import opened ControlPlaneTheorems
  import opened SyncIndex
  import opened IndexBackfill

  // ---------------------------------------------------------------- what a commit makes of the table

  /** The table after the commit of a mutation, with everything else as it was. */
  ghost predicate CommittedTo(p: World, v: World, uid: Id, m: Mutation)
    requires uid in p.cells
  {
    var c := p.cells[uid];
    var state := StateOf(p, c.environment);
    var sequence := NextSequence(state);
    && OthersSame(p, v, uid) && v.names == DropName(p, c, m.archive)
    && v.sync.Keys == p.sync.Keys + {c.environment} && (forall e :: e in p.sync && e != c.environment ==> v.sync[e] == p.sync[e])
    && v.sync[c.environment].sequence == sequence
    && (state.Some? ==> v.sync[c.environment] == state.value.(sequence := sequence))
    && v.changes == NextChanges(p, uid, m.control, sequence)
    && CommittedCell(c, v.cells[uid], m, sequence)
  }

  ghost predicate OthersSame(p: World, v: World, uid: Id)
    requires uid in p.cells
  {
    v.now == p.now && v.cells.Keys == p.cells.Keys && (forall u :: u in p.cells && u != uid ==> v.cells[u] == p.cells[u])
  }

  function NextChanges(p: World, uid: Id, control: Control, sequence: nat): map<ChangeKey, ChangeRow>
    requires uid in p.cells
  {
    var c := p.cells[uid];
    var added := p.changes[ChangeKey(c.environment, sequence, uid) := ChangeRow(SyncRecordOf(uid, control), ChangeTtl(p, control, 0))];
    if SequenceOf(c).Some? then added - {ChangeKey(c.environment, SequenceOf(c).value, uid)} else added
  }

  ghost predicate CommittedCell(c: Cell, d: Cell, m: Mutation, sequence: nat) {
    && NameKey(d) == NameKey(c)
    && d.log == c.log + [Commit(m.control, if m.base.Some? then Some(m.base.value.control) else None)]
    && d.access == (if AccessProjectionChanged(m.control, m.prior) then c.access + AccessItems(m.control, m.prior) else c.access)
    && d.head.Some? && d.head.value.ready && d.head.value.control == m.control.version && d.head.value.state == m.control.state
    && d.head.value.lease.None? && d.head.value.syncSequence == Some(sequence)
    && (m.newPayload && m.control.payload.Some? ==> d.head.value.payload == m.control.payload)
  }

  // ---------------------------------------------------------------- from the lease to the commit

  /** The client is in flight, has the lease, and recovery has not marked its rows. */
  predicate HoldsLease(c: Cell, o: Id) {
    && c.head.Some? && c.head.value.lease.Some? && c.head.value.lease.value.owner == o
    && o in c.ops && InFlight(c.ops[o]) && !HasRetryable(c, o)
  }

  /** The limits of the store: a hundred actions a transaction, and sequences that numbers can hold. */
  predicate Fits(p: World, uid: Id, m: Mutation) {
    uid in p.cells && TransactionSize(m, SequenceOf(p.cells[uid])) <= 100
    && NextSequence(StateOf(p, p.cells[uid].environment)) <= MAX_SAFE_INTEGER
  }

  lemma HolderMayCommit(c: Cell, o: Id, resolves: bool, n: Id)
    requires CellInv(c, n) && HoldsLease(c, o) && TransactionSize(c.ops[o].mutation, SequenceOf(c)) <= 100
    requires c.ops[o].mutation.archive ==> resolves
    ensures CommitAllowed(c, o, c.ops[o].mutation, resolves, SequenceOf(c)) && c.ops[o].mutation.control.environment == c.environment
  {
    hide TransactionSize;
    assert OpOk(c, o, c.ops[o]);
    var m := c.ops[o].mutation;
    HolderRows(c, o, m);
    if m.base.Some? { HolderBase(c, o, m); }
  }

  lemma HolderRows(c: Cell, o: Id, m: Mutation)
    requires OwnRows(c, o, m, false) && !HasRetryable(c, o)
    ensures HasRow(c, ControlKey(m.control.version), Prepared)
    ensures m.newPayload && m.control.payload.Some? ==> HasRow(c, PayloadKey(m.control.payload.value), Prepared)
  {
    assert c.rows[ControlKey(m.control.version)].workflow != Retryable;
    if m.newPayload && m.control.payload.Some? { assert c.rows[PayloadKey(m.control.payload.value)].workflow != Retryable; }
  }

  lemma HolderBase(c: Cell, o: Id, m: Mutation)
    requires HeadOk(c) && LeaseOk(c) && HoldsLease(c, o) && m == c.ops[o].mutation && m.base.Some? && BaseOk(c, m.base.value)
    ensures HasRow(c, ControlKey(m.base.value.head.control), Ready)
    ensures m.base.value.head.payload.Some? ==> HasRow(c, PayloadKey(m.base.value.head.payload.value), Ready)
  {
    hide HasRetryable;
    assert ReadyHeadOk(c, c.head.value);
  }

  lemma NextRowIsFree(p: World, uid: Id, control: Control)
    requires Sound(p) && uid in p.cells && control.environment == p.cells[uid].environment
    requires NextSequence(StateOf(p, control.environment)) <= MAX_SAFE_INTEGER
    ensures RowFree(p, uid, control, StateOf(p, control.environment))
  {
    SoundFacts(p, control.environment);
    hide Sound;
  }

  /** The two tables differ only in this client's locals and in objects that were added. */
  ghost predicate AlmostSame(p: World, q: World, uid: Id, o: Id, op: Op) {
    && uid in p.cells && OthersSame(p, q, uid)
    && q.names == p.names && q.sync == p.sync && q.changes == p.changes
    && q.cells[uid] == p.cells[uid].(objects := q.cells[uid].objects, ops := p.cells[uid].ops[o := op])
  }

  lemma ClientStepIs(w: World, step: Step)
    requires IsClientStep(step)
    ensures Apply(w, step) == OnCell(w, step.uid, ClientCell(w, CellOf(w, step.uid), step)).(nextId := w.nextId + 1)
  {
    hide ClientCell, OnCell, IsMaintenanceStep;
  }

  lemma ItsOp(p: World, q: World, uid: Id, o: Id, op: Op)
    requires AlmostSame(p, q, uid, o, op)
    ensures uid in p.cells && uid in q.cells && o in q.cells[uid].ops && q.cells[uid].ops[o] == op
    ensures q.cells[uid].environment == p.cells[uid].environment && q.cells[uid].head == p.cells[uid].head
    ensures StateOf(q, p.cells[uid].environment) == StateOf(p, p.cells[uid].environment)
  {
  }

  /** The client moves its locals and nothing else. */
  lemma ClientMoves(p: World, q: World, uid: Id, o: Id, a: Op, step: Step, b: Op)
    requires AlmostSame(p, q, uid, o, a) && IsClientStep(step) && step.uid == uid && uid in q.cells
    requires ClientCell(q, q.cells[uid], step) == q.cells[uid].(ops := q.cells[uid].ops[o := b])
    ensures AlmostSame(p, Apply(q, step), uid, o, b)
  {
    hide Apply, ClientCell;
    ClientStepIs(q, step);
  }

  lemma StoresObjects(p: World, q: World, uid: Id, o: Id, m: Mutation)
    requires AlmostSame(p, q, uid, o, Leased(m))
    ensures AlmostSame(p, Apply(q, StoreOp(uid, o)), uid, o, Stored(m, Unread))
  {
    hide Apply;
    ClientStepIs(q, StoreOp(uid, o));
  }

  lemma ReadsCounter(p: World, q: World, uid: Id, o: Id, m: Mutation, stage: Stage)
    requires AlmostSame(p, q, uid, o, Stored(m, stage))
    ensures AlmostSame(p, Apply(q, CountOp(uid, o)), uid, o, Stored(m, Counted(StateOf(p, p.cells[uid].environment))))
  {
    hide Apply, AlmostSame, StateOf;
    ItsOp(p, q, uid, o, Stored(m, stage));
    ClientMoves(p, q, uid, o, Stored(m, stage), CountOp(uid, o), Stored(m, Counted(StateOf(p, p.cells[uid].environment))));
  }

  lemma ReadsPrevious(p: World, q: World, uid: Id, o: Id, m: Mutation, state: Option<SyncState>)
    requires AlmostSame(p, q, uid, o, Stored(m, Counted(state)))
    ensures AlmostSame(p, Apply(q, PrimeOp(uid, o)), uid, o, Stored(m, Primed(state, SequenceOf(p.cells[uid]))))
  {
    hide Apply, AlmostSame, StateOf;
    ItsOp(p, q, uid, o, Stored(m, Counted(state)));
    ClientMoves(p, q, uid, o, Stored(m, Counted(state)), PrimeOp(uid, o), Stored(m, Primed(state, SequenceOf(p.cells[uid]))));
  }

  lemma CommitSucceeds(p: World, q: World, uid: Id, o: Id, m: Mutation)
    requires uid in p.cells && m.control.environment == p.cells[uid].environment
    requires AlmostSame(p, q, uid, o, Stored(m, Primed(StateOf(p, p.cells[uid].environment), SequenceOf(p.cells[uid]))))
    requires CommitAllowed(p.cells[uid], o, m, Resolves(p, uid), SequenceOf(p.cells[uid]))
    requires RowFree(p, uid, m.control, StateOf(p, m.control.environment))
    ensures CommittedTo(p, Apply(q, CommitOp(uid, o, 0)), uid, m)
  {
    hide Apply, CommitRows, AccessProjectionChanged, AccessItems, SyncRecordOf, CommitMutation, CommitAllowed, CommittedCell, PublishRows,
         NextChanges, RowFree, Resolves, NextSequence, StateOf;
    var c, d := p.cells[uid], q.cells[uid];
    var state := StateOf(p, c.environment);
    SameConditions(p, q, uid, o, m);
    CommitIsStep(q, uid, o);
    PublishesNext(p, q, uid, m.control, state, SequenceOf(c));
    CounterStillHolds(p, q, c.environment);
    assert RowFree(q, uid, m.control, state) by { SameRowFree(p, q, uid, m.control, state); }
    MutationIsCommitted(c, d, o, m, NextSequence(state), p.now + RETENTION_MILLISECONDS);
  }

  lemma CommitIsStep(w: World, uid: Id, o: Id)
    ensures Apply(w, CommitOp(uid, o, 0)) == CommitStep(w, uid, o, 0)
  {
    hide CommitStep;
  }

  lemma CounterStillHolds(p: World, q: World, environment: Name)
    requires q.sync == p.sync
    ensures CounterHolds(q, environment, StateOf(p, environment))
  {
  }

  lemma SameRowFree(p: World, q: World, uid: Id, control: Control, state: Option<SyncState>)
    requires q.changes == p.changes && RowFree(p, uid, control, state)
    ensures RowFree(q, uid, control, state)
  {
  }

  /** A publication whose counter has not moved. */
  lemma PublishesNext(p: World, q: World, uid: Id, control: Control, state: Option<SyncState>, previous: Option<nat>)
    requires uid in p.cells && control.environment == p.cells[uid].environment && previous == SequenceOf(p.cells[uid])
    requires q.now == p.now && q.names == p.names && q.sync == p.sync && q.changes == p.changes && state == StateOf(p, control.environment)
    ensures var v, sequence := PublishRows(q, uid, control, state, previous, 0), NextSequence(state);
            && v.cells == q.cells && v.names == p.names && v.now == p.now
            && v.sync.Keys == p.sync.Keys + {control.environment}
            && (forall e :: e in p.sync && e != control.environment ==> v.sync[e] == p.sync[e])
            && v.sync[control.environment].sequence == sequence
            && (state.Some? ==> v.sync[control.environment] == state.value.(sequence := sequence))
            && v.changes == NextChanges(p, uid, control, sequence)
  {
    hide SyncRecordOf;
  }

  lemma SameConditions(p: World, q: World, uid: Id, o: Id, m: Mutation)
    requires uid in p.cells && AlmostSame(p, q, uid, o, Stored(m, Primed(StateOf(p, p.cells[uid].environment), SequenceOf(p.cells[uid]))))
    requires CommitAllowed(p.cells[uid], o, m, Resolves(p, uid), SequenceOf(p.cells[uid]))
    ensures CommitAllowed(q.cells[uid], o, m, Resolves(q, uid), SequenceOf(p.cells[uid])) && Resolves(q, uid) == Resolves(p, uid)
    ensures q.cells[uid].head.Some?
  {
    hide TransactionSize;
  }

  lemma MutationIsCommitted(c: Cell, q: Cell, o: Id, m: Mutation, sequence: nat, due: nat)
    requires q.head.Some? && q == c.(objects := q.objects, ops := q.ops)
    ensures CommittedCell(c, CommitMutation(q, o, m, sequence, due), m, sequence)
  {
    hide CommitRows, AccessProjectionChanged, AccessItems;
  }

  function FinishSteps(uid: Id, o: Id, op: Op): seq<Step> {
    (if op.Leased? then [StoreOp(uid, o)] else []) + [CountOp(uid, o), PrimeOp(uid, o), CommitOp(uid, o, 0)]
  }

  lemma ThreeSteps(w: World, a: Step, b: Step, c: Step)
    ensures Run(w, [a, b, c]) == Apply(Apply(Apply(w, a), b), c)
  {
    hide Apply;
    assert [a, b, c][1..] == [b, c] && [b, c][1..] == [c] && [c][1..] == [];
    var u := Apply(w, a);
    assert Run(Apply(Apply(u, b), c), []) == Apply(Apply(u, b), c);
    assert Run(Apply(u, b), [c]) == Apply(Apply(u, b), c);
    assert Run(u, [b, c]) == Run(Apply(u, b), [c]);
  }

  lemma SameAsItself(p: World, uid: Id, o: Id)
    requires uid in p.cells && o in p.cells[uid].ops
    ensures AlmostSame(p, p, uid, o, p.cells[uid].ops[o])
  {
    var ops := p.cells[uid].ops;
    assert ops[o := ops[o]] == ops;
  }

  /** In any reachable table, a lease holder whose rows are unmarked commits in its next requests. */
  lemma LeaseHolderCommits(p: World, uid: Id, o: Id)
    requires Sound(p) && uid in p.cells && HoldsLease(p.cells[uid], o)
    requires Fits(p, uid, p.cells[uid].ops[o].mutation) && (p.cells[uid].ops[o].mutation.archive ==> Resolves(p, uid))
    ensures CommittedTo(p, Run(p, FinishSteps(uid, o, p.cells[uid].ops[o])), uid, p.cells[uid].ops[o].mutation)
  {
    hide Apply, Run, CellInv, IndexInv, NamesOk, CellsOk, CommittedTo, AlmostSame, TransactionSize, HasRetryable, CommitAllowed, RowFree;
    var c := p.cells[uid];
    var m := c.ops[o].mutation;
    CellFacts(p, uid);
    HolderMayCommit(c, o, Resolves(p, uid), p.nextId);
    NextRowIsFree(p, uid, m.control);
    SameAsItself(p, uid, o);
    var q := p;
    if c.ops[o].Leased? {
      q := Apply(p, StoreOp(uid, o));
      StoresObjects(p, p, uid, o, m);
      OneStep(p, StoreOp(uid, o));
    } else {
      NoStep(p);
    }
    var last := [CountOp(uid, o), PrimeOp(uid, o), CommitOp(uid, o, 0)];
    FinishFrom(p, q, uid, o, m, if c.ops[o].Leased? then Unread else c.ops[o].stage);
    RunConcat(p, if c.ops[o].Leased? then [StoreOp(uid, o)] else [], last);
  }

  lemma NoStep(w: World)
    ensures Run(w, []) == w
  {
  }

  lemma FinishFrom(p: World, q: World, uid: Id, o: Id, m: Mutation, stage: Stage)
    requires uid in p.cells && AlmostSame(p, q, uid, o, Stored(m, stage)) && m.control.environment == p.cells[uid].environment
    requires CommitAllowed(p.cells[uid], o, m, Resolves(p, uid), SequenceOf(p.cells[uid]))
    requires RowFree(p, uid, m.control, StateOf(p, m.control.environment))
    ensures CommittedTo(p, Run(q, [CountOp(uid, o), PrimeOp(uid, o), CommitOp(uid, o, 0)]), uid, m)
  {
    hide Apply, Run, CommittedTo, AlmostSame, CommitAllowed, RowFree;
    var state := StateOf(p, p.cells[uid].environment);
    var r := Apply(q, CountOp(uid, o));
    ReadsCounter(p, q, uid, o, m, stage);
    ReadsPrevious(p, r, uid, o, m, state);
    CommitSucceeds(p, Apply(r, PrimeOp(uid, o)), uid, o, m);
    ThreeSteps(q, CountOp(uid, o), PrimeOp(uid, o), CommitOp(uid, o, 0));
  }

  // ---------------------------------------------------------------- from the request to the lease

  /** Only one client's locals have moved, and ids have been drawn. */
  function Moved(w: World, uid: Id, o: Id, op: Op, n: Id): World
    requires uid in w.cells
  {
    w.(nextId := n, cells := w.cells[uid := w.cells[uid].(ops := w.cells[uid].ops[o := op])])
  }

  lemma MovedAgain(w: World, uid: Id, o: Id, a: Op, b: Op, n: Id, k: Id)
    requires uid in w.cells
    ensures Moved(Moved(w, uid, o, a, n), uid, o, b, k) == Moved(w, uid, o, b, k)
  {
    var c := w.cells[uid];
    assert c.ops[o := a][o := b] == c.ops[o := b];
    var d := c.(ops := c.ops[o := a]);
    assert w.cells[uid := d][uid := c.(ops := c.ops[o := b])] == w.cells[uid := c.(ops := c.ops[o := b])];
  }

  predicate Idle(c: Cell, now: nat) {
    c.head.Some? && c.head.value.ready && (c.head.value.lease.None? || c.head.value.lease.value.expires < now)
  }

  /** The request names the secret's current revision, and reaches it. */
  predicate Reaching(w: World, uid: Id, request: Request) {
    && uid in w.cells && w.cells[uid].head.Some? && !request.CreateRequest?
    && request.expected == w.cells[uid].head.value.control && NameKey(w.cells[uid]) == (request.environment, request.secretId)
    && (!request.UpdateByUid? ==> LookupName(w, request.environment, request.secretId) == Some(uid))
  }

  function StartOf(uid: Id, request: Request): Step {
    if request.UpdateByUid? then StartByUid(uid, request) else StartByName(request)
  }

  lemma Starts(w: World, uid: Id, request: Request)
    requires CellsOk(w) && Reaching(w, uid, request)
    ensures Apply(w, StartOf(uid, request)) == Moved(w, uid, w.nextId, Resolved(request), w.nextId + 1)
  {
    hide Apply, CellsOk, CellInv;
    StartIs(w, uid, request);
    CellFacts(w, uid);
    OperationIsFree(w.cells[uid], w.nextId);
  }

  lemma StartIs(w: World, uid: Id, request: Request)
    requires Reaching(w, uid, request)
    ensures Apply(w, StartOf(uid, request)) == StartStep(w, uid, request)
  {
    hide StartStep;
  }

  lemma OperationIsFree(c: Cell, n: Id)
    requires CellInv(c, n)
    ensures n !in c.ops
  {
  }

  lemma Snapshots(w: World, uid: Id, o: Id, request: Request, n: Id)
    requires CellsOk(w) && Reaching(w, uid, request) && IsReady(w.cells[uid])
    ensures |w.cells[uid].log| > 0
    ensures var c := w.cells[uid];
            Apply(Moved(w, uid, o, Resolved(request), n), TakeSnapshot(uid, o))
            == Moved(w, uid, o, Reading(request, Base(c.head.value, CurrentControl(c)), map[], {}, None), n + 1)
  {
    var c := w.cells[uid];
    CellFacts(w, uid);
    HeadIsRead(c, w.nextId);
    MovedAgain(w, uid, o, Resolved(request), Reading(request, Base(c.head.value, CurrentControl(c)), map[], {}, None), n, n + 1);
    hide CellsOk, CellInv;
  }

  lemma HeadIsRead(c: Cell, n: Id)
    requires CellInv(c, n) && IsReady(c)
    ensures |c.log| > 0 && c.head.value.controlObject.Some? && c.head.value.controlObject.value in c.objects
    ensures c.objects[c.head.value.controlObject.value] == ControlDocument(CurrentControl(c))
    ensures CurrentControl(c).environment == c.environment && CurrentControl(c).secretId == c.secretId
    ensures CurrentControl(c).version == c.head.value.control
  {
    assert ReadyHeadOk(c, c.head.value);
    assert SettledKey(c, ControlKey(CurrentControl(c).version));
  }

  /** The rows read for the grants of the current ACL, one lookup and one read at a time. */
  function PriorRows(w: World, name: (Name, Name), order: seq<Id>): map<Id, AccessRow> {
    if order == [] then map[]
    else
      var rest, k := PriorRows(w, name, order[..|order| - 1]), order[|order| - 1];
      var row := AccessRowOf(w, LookupName(w, name.0, name.1), k);
      if row.Some? then rest[k := row.value] else rest - {k}
  }

  function Members(order: seq<Id>): set<Id> {
    set k | k in order
  }

  function ReadSteps(uid: Id, o: Id, order: seq<Id>): seq<Step> {
    if order == [] then []
    else ReadSteps(uid, o, order[..|order| - 1]) + [ResolveGrant(uid, o, order[|order| - 1]), FetchGrant(uid, o)]
  }

  lemma OneGrant(w: World, uid: Id, o: Id, request: Request, base: Base, prior: map<Id, AccessRow>, read: set<Id>, k: Id, n: Id)
    requires uid in w.cells && k in base.control.acl && NameKey(w.cells[uid]) == (request.environment, request.secretId)
    ensures var row := AccessRowOf(w, LookupName(w, request.environment, request.secretId), k);
            Apply(Apply(Moved(w, uid, o, Reading(request, base, prior, read, None), n), ResolveGrant(uid, o, k)), FetchGrant(uid, o))
            == Moved(w, uid, o, Reading(request, base, if row.Some? then prior[k := row.value] else prior - {k}, read + {k}, None), n + 2)
  {
    var found := LookupName(w, request.environment, request.secretId);
    var row := AccessRowOf(w, found, k);
    var a, b := Reading(request, base, prior, read, None), Reading(request, base, prior, read, Some(AccessLookup(k, found)));
    var d := Reading(request, base, if row.Some? then prior[k := row.value] else prior - {k}, read + {k}, None);
    GrantResolved(w, uid, o, a, b, k, n);
    GrantFetched(w, uid, o, b, d, n + 1);
  }

  lemma GrantResolved(w: World, uid: Id, o: Id, a: Op, b: Op, k: Id, n: Id)
    requires uid in w.cells && a.Reading? && k in a.base.control.acl && NameKey(w.cells[uid]) == (a.request.environment, a.request.secretId)
    requires b == a.(lookup := Some(AccessLookup(k, LookupName(w, a.request.environment, a.request.secretId))))
    ensures Apply(Moved(w, uid, o, a, n), ResolveGrant(uid, o, k)) == Moved(w, uid, o, b, n + 1)
  {
    MovedAgain(w, uid, o, a, b, n, n + 1);
  }

  lemma GrantFetched(w: World, uid: Id, o: Id, b: Op, d: Op, n: Id)
    requires uid in w.cells && b.Reading? && b.lookup.Some?
    requires var k := b.lookup.value.consumer;
             var row := AccessRowOf(w, b.lookup.value.uid, k);
             d == b.(lookup := None, read := b.read + {k}, prior := if row.Some? then b.prior[k := row.value] else b.prior - {k})
    ensures Apply(Moved(w, uid, o, b, n), FetchGrant(uid, o)) == Moved(w, uid, o, d, n + 1)
  {
    MovedAgain(w, uid, o, b, d, n, n + 1);
    var moved := Moved(w, uid, o, b, n);
    assert AccessRowOf(moved, b.lookup.value.uid, b.lookup.value.consumer) == AccessRowOf(w, b.lookup.value.uid, b.lookup.value.consumer);
  }

  lemma {:induction false} ReadsGrants(w: World, uid: Id, o: Id, request: Request, base: Base, order: seq<Id>, n: Id)
    requires uid in w.cells && NameKey(w.cells[uid]) == (request.environment, request.secretId)
    requires forall k :: k in order ==> k in base.control.acl
    ensures Run(Moved(w, uid, o, Reading(request, base, map[], {}, None), n), ReadSteps(uid, o, order))
            == Moved(w, uid, o, Reading(request, base, PriorRows(w, (request.environment, request.secretId), order), Members(order), None),
                     n + 2 * |order|)
    decreases |order|
  {
    hide Apply, Run, Moved, AccessRowOf, LookupName;
    var start := Moved(w, uid, o, Reading(request, base, map[], {}, None), n);
    if order == [] {
      NoStep(start);
      assert Members(order) == {};
    } else {
      var rest, k := order[..|order| - 1], order[|order| - 1];
      assert order == rest + [k];
      ReadsGrants(w, uid, o, request, base, rest, n);
      OneGrant(w, uid, o, request, base, PriorRows(w, (request.environment, request.secretId), rest), Members(rest), k, n + 2 * |rest|);
      RunConcat(start, ReadSteps(uid, o, rest), [ResolveGrant(uid, o, k), FetchGrant(uid, o)]);
      TwoSteps(Run(start, ReadSteps(uid, o, rest)), ResolveGrant(uid, o, k), FetchGrant(uid, o));
      assert Members(order) == Members(rest) + {k};
    }
  }

  lemma TwoSteps(w: World, a: Step, b: Step)
    ensures Run(w, [a, b]) == Apply(Apply(w, a), b)
  {
    hide Apply;
    assert [a, b][1..] == [b];
    OneStep(Apply(w, a), b);
  }

  // ---------------------------------------------------------------- a whole update

  /** The mutation an update computes when nobody else acts. */
  function MutationFor(w: World, uid: Id, request: Request, order: seq<Id>): Mutation
    requires Reaching(w, uid, request) && |w.cells[uid].log| > 0
  {
    var c, n := w.cells[uid], w.nextId + 2 + 2 * |order|;
    Mutation(request.ArchiveRequest?, NextControl(request, CurrentControl(c), n, n + 1), WritesPayload(request),
             Some(Base(c.head.value, CurrentControl(c))), PriorRows(w, (request.environment, request.secretId), order),
             w.now + LEASE_MILLISECONDS)
  }

  function AcquireSteps(w: World, uid: Id, request: Request, order: seq<Id>): seq<Step> {
    [StartOf(uid, request), TakeSnapshot(uid, w.nextId)] + ReadSteps(uid, w.nextId, order) + [PrepareOp(uid, w.nextId, 0)]
  }

  function UpdateSteps(w: World, uid: Id, request: Request, order: seq<Id>): seq<Step>
    requires Reaching(w, uid, request) && |w.cells[uid].log| > 0
  {
    AcquireSteps(w, uid, request, order) + FinishSteps(uid, w.nextId, Leased(MutationFor(w, uid, request, order)))
  }

  /** The table once the lease is taken: rows, lease and locals of one secret. */
  function Acquired(w: World, uid: Id, request: Request, order: seq<Id>): World
    requires Reaching(w, uid, request) && |w.cells[uid].log| > 0
  {
    var c, o, m := w.cells[uid], w.nextId, MutationFor(w, uid, request, order);
    w.(nextId := w.nextId + 4 + 2 * |order|,
       cells := w.cells[uid := c.(head := Some(c.head.value.(lease := Some(Lease(o, m.expires)))), rows := WithRows(c, o, m),
                                  ops := c.ops[o := Leased(m)])])
  }

  lemma Prepares(w: World, uid: Id, request: Request, order: seq<Id>)
    requires CellsOk(w) && Reaching(w, uid, request) && |w.cells[uid].log| > 0 && Idle(w.cells[uid], w.now)
    requires forall k :: k in order <==> k in CurrentControl(w.cells[uid]).acl
    ensures var c, m := w.cells[uid], MutationFor(w, uid, request, order);
            Apply(Moved(w, uid, w.nextId, Reading(request, m.base.value, m.prior, Members(order), None), w.nextId + 2 + 2 * |order|),
                  PrepareOp(uid, w.nextId, 0))
            == Acquired(w, uid, request, order)
  {
    hide Apply, MutationFor, PriorRows, CellsOk, CellInv, Prepare, WithRows, Members;
    var c, o, m, n := w.cells[uid], w.nextId, MutationFor(w, uid, request, order), w.nextId + 2 + 2 * |order|;
    MutationParts(w, uid, request, order);
    var op := Reading(request, m.base.value, m.prior, Members(order), None);
    var v := Moved(w, uid, o, op, n);
    CellFacts(w, uid);
    assert Members(order) == CurrentControl(c).acl.Keys by { MembersOf(order); }
    PreparesCell(c, o, op, m, n, w.nextId, w.now, NameKey(c) !in w.names);
    PrepareIsStep(v, uid, o);
    var d := c.(head := Some(c.head.value.(lease := Some(Lease(o, m.expires)))), rows := WithRows(c, o, m), ops := c.ops[o := Leased(m)]);
    assert v.cells[uid := d] == w.cells[uid := d];
  }

  lemma MembersOf(order: seq<Id>)
    ensures forall k :: k in Members(order) <==> k in order
  {
  }

  lemma PrepareIsStep(w: World, uid: Id, o: Id)
    ensures Apply(w, PrepareOp(uid, o, 0)) == PrepareStep(w, uid, o, 0)
  {
    hide PrepareStep;
  }

  lemma MutationParts(w: World, uid: Id, request: Request, order: seq<Id>)
    requires Reaching(w, uid, request) && |w.cells[uid].log| > 0
    ensures var c, m, n := w.cells[uid], MutationFor(w, uid, request, order), w.nextId + 2 + 2 * |order|;
            && m.base == Some(Base(c.head.value, CurrentControl(c))) && m.expires == w.now + LEASE_MILLISECONDS
            && m == Mutation(request.ArchiveRequest?, NextControl(request, CurrentControl(c), n, n + 1), WritesPayload(request),
                             m.base, m.prior, m.expires)
  {
    hide PriorRows, NextControl;
  }

  /** With every grant read, and the lease free, the prepare transaction goes through. */
  lemma PreparesCell(c: Cell, o: Id, op: Op, m: Mutation, n: Id, k: Id, now: nat, nameFree: bool)
    requires CellInv(c, k) && k <= n && Idle(c, now) && op.Reading? && !op.request.CreateRequest? && op.read == op.base.control.acl.Keys
    requires op.base.head.control == c.head.value.control
    requires m == Mutation(op.request.ArchiveRequest?, NextControl(op.request, op.base.control, n, n + 1), WritesPayload(op.request),
                           Some(op.base), op.prior, m.expires)
    ensures Prepare(c.(ops := c.ops[o := op]), o, n, n + 1, nameFree, now, m.expires)
            == c.(head := Some(c.head.value.(lease := Some(Lease(o, m.expires)))), rows := WithRows(c, o, m), ops := c.ops[o := Leased(m)])
  {
    var d := c.(ops := c.ops[o := op]);
    IdsAreUnused(c, k, n);
    NextKeys(op.request, op.base.control, n);
    SameRows(c, d, o, m);
    hide CellInv, NextControl, WithRows;
    assert d.ops[o := Leased(m)] == c.ops[o := Leased(m)];
    assert MutationOf(d, o, n, n + 1, m.expires) == Some(m);
    assert PrepareAllowed(d, m, nameFree, now);
  }

  lemma SameRows(c: Cell, d: Cell, o: Id, m: Mutation)
    requires d.rows == c.rows
    ensures WithRows(d, o, m) == WithRows(c, o, m)
  {
  }

  lemma NextKeys(request: Request, base: Control, n: Id)
    requires !request.CreateRequest?
    ensures NextControl(request, base, n, n + 1).version == n
    ensures WritesPayload(request) ==> NextControl(request, base, n, n + 1).payload == Some(n + 1)
  {
  }

  lemma IdsAreUnused(c: Cell, n: Id, k: Id)
    requires CellInv(c, n) && n <= k
    ensures forall key :: key in c.rows ==> key.version < k
  {
  }

  lemma LeaseIsTaken(w: World, uid: Id, request: Request, order: seq<Id>)
    requires Sound(w) && Reaching(w, uid, request) && IsReady(w.cells[uid]) && |w.cells[uid].log| > 0 && Idle(w.cells[uid], w.now)
    requires forall k :: k in order <==> k in CurrentControl(w.cells[uid]).acl
    ensures Run(w, AcquireSteps(w, uid, request, order)) == Acquired(w, uid, request, order)
  {
    hide Apply, Run, CellsOk, IndexInv, NamesOk, Moved, PriorRows, ReadSteps, Acquired;
    var o, base := w.nextId, Base(w.cells[uid].head.value, CurrentControl(w.cells[uid]));
    Starts(w, uid, request);
    Snapshots(w, uid, o, request, w.nextId + 1);
    ReadsGrants(w, uid, o, request, base, order, w.nextId + 2);
    Prepares(w, uid, request, order);
    TwoSteps(w, StartOf(uid, request), TakeSnapshot(uid, o));
    RunConcat(w, [StartOf(uid, request), TakeSnapshot(uid, o)], ReadSteps(uid, o, order));
    var path := [StartOf(uid, request), TakeSnapshot(uid, o)] + ReadSteps(uid, o, order);
    RunConcat(w, path, [PrepareOp(uid, o, 0)]);
    OneStep(Run(w, path), PrepareOp(uid, o, 0));
  }

  lemma TakenIsHeld(w: World, uid: Id, request: Request, order: seq<Id>)
    requires CellsOk(w) && Reaching(w, uid, request) && |w.cells[uid].log| > 0
    ensures var p := Acquired(w, uid, request, order);
            && uid in p.cells && HoldsLease(p.cells[uid], w.nextId) && p.cells[uid].ops[w.nextId] == Leased(MutationFor(w, uid, request, order))
            && Resolves(p, uid) == Resolves(w, uid)
  {
    CellFacts(w, uid);
    OperationIsNew(w.cells[uid], w.nextId);
    hide CellsOk, CellInv, MutationFor, WithRows, HoldsLease;
    CellIsHeld(w.cells[uid], w.nextId, MutationFor(w, uid, request, order));
  }

  lemma CellIsHeld(c: Cell, o: Id, m: Mutation)
    requires c.head.Some? && (forall key :: key in c.rows ==> c.rows[key].operation != o)
    ensures HoldsLease(c.(head := Some(c.head.value.(lease := Some(Lease(o, m.expires)))), rows := WithRows(c, o, m), ops := c.ops[o := Leased(m)]), o)
  {
  }

  lemma OperationIsNew(c: Cell, n: Id)
    requires CellInv(c, n)
    ensures forall key :: key in c.rows ==> c.rows[key].operation != n
  {
  }

  /** The lease, the rows and the clients do not matter for what the commit makes of the secret. */
  lemma SameCommit(c: Cell, p: Cell, d: Cell, m: Mutation, sequence: nat)
    requires CommittedCell(p, d, m, sequence) && NameKey(p) == NameKey(c) && p.log == c.log && p.access == c.access
    ensures CommittedCell(c, d, m, sequence)
  {
  }

  /** The tables differ only in this secret's lease, rows and clients. */
  ghost predicate SameButLease(w: World, p: World, uid: Id) {
    && uid in w.cells && uid in p.cells && OthersSame(w, p, uid)
    && p.names == w.names && p.sync == w.sync && p.changes == w.changes
    && NameKey(p.cells[uid]) == NameKey(w.cells[uid]) && p.cells[uid].log == w.cells[uid].log
    && p.cells[uid].access == w.cells[uid].access && SequenceOf(p.cells[uid]) == SequenceOf(w.cells[uid])
  }

  lemma AcquiringTakesLease(w: World, uid: Id, request: Request, order: seq<Id>)
    requires Reaching(w, uid, request) && |w.cells[uid].log| > 0
    ensures SameButLease(w, Acquired(w, uid, request, order), uid)
  {
    hide MutationFor, WithRows;
  }

  lemma CommitFromLease(w: World, p: World, v: World, uid: Id, m: Mutation, request: Request, order: seq<Id>)
    requires Reaching(w, uid, request) && |w.cells[uid].log| > 0
    requires p == Acquired(w, uid, request, order) && CommittedTo(p, v, uid, m)
    ensures CommittedTo(w, v, uid, m)
  {
    hide CommittedTo, Acquired, SameButLease;
    AcquiringTakesLease(w, uid, request, order);
    CommitFromSame(w, p, v, uid, m);
  }

  lemma OthersChain(w: World, p: World, v: World, uid: Id)
    requires uid in w.cells && uid in p.cells && OthersSame(w, p, uid) && OthersSame(p, v, uid)
    ensures OthersSame(w, v, uid)
  {
  }

  lemma SameNextChanges(w: World, p: World, uid: Id, control: Control, sequence: nat)
    requires SameButLease(w, p, uid)
    ensures NextChanges(p, uid, control, sequence) == NextChanges(w, uid, control, sequence)
  {
    hide SyncRecordOf;
  }

  lemma CommitFromSame(w: World, p: World, v: World, uid: Id, m: Mutation)
    requires SameButLease(w, p, uid) && CommittedTo(p, v, uid, m)
    ensures CommittedTo(w, v, uid, m)
  {
    hide CommittedCell, NextChanges, OthersSame;
    OthersChain(w, p, v, uid);
    SameNextChanges(w, p, uid, m.control, NextSequence(StateOf(w, w.cells[uid].environment)));
    SameCommit(w.cells[uid], p.cells[uid], v.cells[uid], m, NextSequence(StateOf(w, w.cells[uid].environment)));
  }

  /**
   * Expired leases never block: in any reachable table, an update, agent update or archive of an idle READY
   * secret that names its current revision commits when nobody else acts, and what it commits is the
   * revision it asked for, built on the current one.
   */
  lemma UpdateCommits(w: World, uid: Id, request: Request, order: seq<Id>)
    requires Sound(w) && Reaching(w, uid, request) && IsReady(w.cells[uid]) && |w.cells[uid].log| > 0 && Idle(w.cells[uid], w.now)
    requires forall k :: k in order <==> k in CurrentControl(w.cells[uid]).acl
    requires Fits(w, uid, MutationFor(w, uid, request, order))
    ensures CommittedTo(w, Run(w, UpdateSteps(w, uid, request, order)), uid, MutationFor(w, uid, request, order))
  {
    hide Run, CellsOk, IndexInv, NamesOk, CommittedTo, MutationFor, Acquired, HoldsLease, TransactionSize, FinishSteps, AcquireSteps;
    var m, p, o := MutationFor(w, uid, request, order), Acquired(w, uid, request, order), w.nextId;
    LeaseIsTaken(w, uid, request, order);
    RunIsSound(w, AcquireSteps(w, uid, request, order));
    TakenIsHeld(w, uid, request, order);
    TakenFits(w, uid, request, order);
    ArchiveResolves(w, uid, request, order);
    LeaseHolderCommits(p, uid, o);
    RunConcat(w, AcquireSteps(w, uid, request, order), FinishSteps(uid, o, Leased(m)));
    CommitFromLease(w, p, Run(p, FinishSteps(uid, o, Leased(m))), uid, m, request, order);
  }

  lemma TakenFits(w: World, uid: Id, request: Request, order: seq<Id>)
    requires Reaching(w, uid, request) && |w.cells[uid].log| > 0 && Fits(w, uid, MutationFor(w, uid, request, order))
    ensures Fits(Acquired(w, uid, request, order), uid, MutationFor(w, uid, request, order))
  {
    hide TransactionSize, MutationFor;
  }

  lemma ArchiveResolves(w: World, uid: Id, request: Request, order: seq<Id>)
    requires Reaching(w, uid, request) && |w.cells[uid].log| > 0
    ensures MutationFor(w, uid, request, order).archive ==> Resolves(w, uid)
  {
    hide PriorRows, NextControl;
  }

  // ---------------------------------------------------------------- a whole create

  function CreateMutation(w: World, request: Request): Mutation
    requires request.CreateRequest?
  {
    Mutation(false, Control(w.nextId + 2, request.environment, request.secretId, None, PendingValue, request.metadata, request.acl),
             false, None, map[], w.now + LEASE_MILLISECONDS)
  }

  /** The table once a create is prepared: a new secret with a PREPARED head, and its LOOKUP. */
  function CreateTaken(w: World, request: Request): World
    requires request.CreateRequest?
  {
    var uid, o, m := w.nextId, w.nextId + 1, CreateMutation(w, request);
    w.(nextId := w.nextId + 4, names := w.names[(request.environment, request.secretId) := uid],
       cells := w.cells[uid :=
         Cell(request.environment, request.secretId,
              Some(Head(m.control.version, None, None, None, PendingValue, request.metadata, false, Some(Lease(o, m.expires)), None)),
              map[ControlKey(m.control.version) := Row(o, Prepared, None, m.expires, Some(m.control), None)],
              map[], map[], map[o := Leased(m)], map[], [])])
  }

  lemma CreateIsPrepared(w: World, request: Request)
    requires request.CreateRequest? && (request.environment, request.secretId) !in w.names
    ensures Apply(Apply(w, StartCreate(request)), PrepareOp(w.nextId, w.nextId + 1, 0)) == CreateTaken(w, request)
  {
    hide Apply, Prepare;
    var uid, o, m := w.nextId, w.nextId + 1, CreateMutation(w, request);
    var s := Apply(w, StartCreate(request));
    var empty := Cell(request.environment, request.secretId, None, map[], map[], map[], map[o := Resolved(request)], map[], []);
    CreateStarts(w, request);
    var d := CreateTaken(w, request).cells[uid];
    PreparesEmpty(empty, o, request, m, d, w.nextId + 2, w.now);
    PrepareIsStep(s, uid, o);
    assert s.cells[uid := d] == w.cells[uid := d];
  }

  lemma CreateStarts(w: World, request: Request)
    requires request.CreateRequest?
    ensures Apply(w, StartCreate(request)) ==
            w.(nextId := w.nextId + 2,
               cells := w.cells[w.nextId := Cell(request.environment, request.secretId, None, map[], map[], map[],
                                                 map[w.nextId + 1 := Resolved(request)], map[], [])])
  {
  }

  lemma PreparesEmpty(c: Cell, o: Id, request: Request, m: Mutation, d: Cell, n: Id, now: nat)
    requires request.CreateRequest? && c == Cell(request.environment, request.secretId, None, map[], map[], map[], map[o := Resolved(request)], map[], [])
    requires m == Mutation(false, Control(n, request.environment, request.secretId, None, PendingValue, request.metadata, request.acl),
                           false, None, map[], m.expires)
    requires d == c.(head := Some(Head(n, None, None, None, PendingValue, request.metadata, false, Some(Lease(o, m.expires)), None)),
                     rows := map[ControlKey(n) := Row(o, Prepared, None, m.expires, Some(m.control), None)], ops := map[o := Leased(m)])
    ensures Prepare(c, o, n, n + 1, true, now, m.expires) == d
  {
    assert c.ops[o := Leased(m)] == d.ops;
    assert WithRows(c, o, m) == d.rows;
  }

  function CreateSteps(w: World): seq<Step> {
    var uid, o := w.nextId, w.nextId + 1;
    [PrepareOp(uid, o, 0), StoreOp(uid, o), CountOp(uid, o), PrimeOp(uid, o), CommitOp(uid, o, 0)]
  }

  /** A create of a free name commits when nobody else acts. */
  lemma CreateCommits(w: World, request: Request)
    requires Sound(w) && request.CreateRequest? && (request.environment, request.secretId) !in w.names
    requires Fits(CreateTaken(w, request), w.nextId, CreateMutation(w, request))
    ensures CommittedTo(CreateTaken(w, request), Run(w, [StartCreate(request)] + CreateSteps(w)), w.nextId, CreateMutation(w, request))
  {
    hide Apply, Run, CellsOk, IndexInv, NamesOk, CommittedTo, TransactionSize, HasRetryable;
    var uid, o, p := w.nextId, w.nextId + 1, CreateTaken(w, request);
    var a, b := StartCreate(request), PrepareOp(uid, o, 0);
    CreateIsPrepared(w, request);
    TwoSteps(w, a, b);
    RunIsSound(w, [a, b]);
    CreateIsHeld(w, request);
    LeaseHolderCommits(p, uid, o);
    var finish := FinishSteps(uid, o, p.cells[uid].ops[o]);
    assert [a] + CreateSteps(w) == [a, b] + finish;
    RunConcat(w, [a, b], finish);
  }

  lemma CreateIsHeld(w: World, request: Request)
    requires request.CreateRequest?
    ensures HoldsLease(CreateTaken(w, request).cells[w.nextId], w.nextId + 1)
  {
  }
}
