/**
 * One run, in two versions: a secret is created, its archive is prepared, two more requests resolve its name,
 * the archive commits, and then the two updates, the second of them reading access rows under the lost name.
 */
module RaceRun {
  import opened Domain
  import opened Revisions
  import opened RevisionInvariants
  import opened ControlPlane
  import opened ControlPlaneInvariants
  import opened IndexInvariants
  import opened NameInvariants
  import opened ControlPlaneTheorems

  const SECRET: (Name, Name) := ("env", "key")
  const READER: Id := 7
  const OTHER: Id := 9

  const Create := CreateRequest("env", "key", "", map[])
  const Remove := ArchiveRequest("env", "key", 2)
  const Grant := UpdateByName("env", "key", 10, None, Some(map[READER := true]), false)
  const Replace := UpdateByName("env", "key", 19, None, Some(map[OTHER := true]), true)

  /** Creates a secret, prepares its archive, and resolves the name for two more requests. */
  function Opening(second: Request): seq<Step> {
    [StartCreate(Create), PrepareOp(0, 1, 0), StoreOp(0, 1), CountOp(0, 1), PrimeOp(0, 1), CommitOp(0, 1, 0),
     StartByName(Remove), TakeSnapshot(0, 8), PrepareOp(0, 8, 0), StoreOp(0, 8), CountOp(0, 8), PrimeOp(0, 8),
     StartByName(Grant), StartByName(second)]
  }

  /** The archive commits, and then the first update. */
  const Middle: seq<Step> := [
    CommitOp(0, 8, 0),
    TakeSnapshot(0, 15), PrepareOp(0, 15, 0), StoreOp(0, 15), CountOp(0, 15), PrimeOp(0, 15), CommitOp(0, 15, 0)]

  /** The second update reads, finds no access row under the lost name, and commits. */
  const Ending: seq<Step> := [
    TakeSnapshot(0, 16), ResolveGrant(0, 16, READER), FetchGrant(0, 16),
    PrepareOp(0, 16, 0), StoreOp(0, 16), CountOp(0, 16), PrimeOp(0, 16), CommitOp(0, 16, 0)]

  const First := Control(2, "env", "key", None, PendingValue, "", map[])
  const Archive := Control(10, "env", "key", None, Archived, "", map[])
  const Late := Control(19, "env", "key", None, Archived, "", map[READER := true])
  const Taken := Control(28, "env", "key", Some(29), Active, "", map[OTHER := true])

  const L := LEASE_MILLISECONDS
  const S1 := SyncState(7, 1, false)
  const S2 := SyncState(7, 2, false)
  const S3 := SyncState(7, 3, false)

  const H1 := Head(2, None, None, None, PendingValue, "", false, Some(Lease(1, L)), None)
  const H2 := Head(2, Some(ControlKey(2)), None, None, PendingValue, "", true, None, Some(1))
  const H3 := H2.(lease := Some(Lease(8, L)))
  const H4 := Head(10, Some(ControlKey(10)), None, None, Archived, "", true, None, Some(2))
  const H5 := H4.(lease := Some(Lease(15, L)))
  const H6 := Head(19, Some(ControlKey(19)), None, None, Archived, "", true, None, Some(3))
  const H7 := H6.(lease := Some(Lease(16, L)))

  const M1 := Mutation(false, First, false, None, map[], L)
  const M2 := Mutation(true, Archive, false, Some(Base(H2, First)), map[], L)
  const M3 := Mutation(false, Late, false, Some(Base(H4, Archive)), map[], L)
  const M4 := Mutation(false, Taken, true, Some(Base(H6, Late)), map[], L)

  const R1: map<Key, Row> := map[ControlKey(2) := Row(1, Prepared, None, L, Some(First), None)]
  const R2: map<Key, Row> := map[ControlKey(2) := Row(1, Ready, Some(ControlKey(2)), L, Some(First), None)]
  const R3 := R2[ControlKey(10) := Row(8, Prepared, None, L, Some(Archive), None)]
  const R4: map<Key, Row> := map[
    ControlKey(2) := Row(1, Ready, Some(ControlKey(2)), L, Some(First), Some(RETENTION_MILLISECONDS)),
    ControlKey(10) := Row(8, Ready, Some(ControlKey(10)), L, Some(Archive), None)]
  const R5 := R4[ControlKey(19) := Row(15, Prepared, None, L, Some(Late), None)]
  const R6: map<Key, Row> := map[
    ControlKey(2) := Row(1, Ready, Some(ControlKey(2)), L, Some(First), Some(RETENTION_MILLISECONDS)),
    ControlKey(10) := Row(8, Ready, Some(ControlKey(10)), L, Some(Archive), Some(RETENTION_MILLISECONDS)),
    ControlKey(19) := Row(15, Ready, Some(ControlKey(19)), L, Some(Late), None)]
  const R7 := R6[ControlKey(28) := Row(16, Prepared, None, L, Some(Taken), None)][PayloadKey(29) := Row(16, Prepared, None, L, None, None)]

  const D1: map<Key, Document> := map[ControlKey(2) := ControlDocument(First)]
  const D2 := D1[ControlKey(10) := ControlDocument(Archive)]
  const D3 := D2[ControlKey(19) := ControlDocument(Late)]
  const D4 := D3[ControlKey(28) := ControlDocument(Taken)][PayloadKey(29) := PayloadDocument]

  const A1: map<Id, AccessRow> := map[READER := AccessRow("env", "key", true, 19, None, Archived)]

  const Q3 := Reading(Grant, Base(H4, Archive), map[], {}, None)
  const Q4 := Reading(Replace, Base(H6, Late), map[], {}, None)
  const Q5 := Reading(Replace, Base(H6, Late), map[], {}, Some(AccessLookup(READER, None)))
  const Q6 := Reading(Replace, Base(H6, Late), map[], {READER}, None)

  /** The parts of the table that the race touches. */
  datatype Shot = Shot(
    n: Id,
    head: Option<Head>,
    rows: map<Key, Row>,
    objects: map<Key, Document>,
    access: map<Id, AccessRow>,
    ops: map<Id, Op>,
    named: bool,
    state: Option<SyncState>)

  ghost predicate CellLooks(c: Cell, s: Shot) {
    && NameKey(c) == SECRET && c.head == s.head && c.rows == s.rows && c.objects == s.objects && c.access == s.access
    && (forall x :: x in s.ops ==> x in c.ops && c.ops[x] == s.ops[x])
    && (forall x :: x in c.ops ==> x < s.n)
  }

  ghost predicate TableLooks(w: World, s: Shot) {
    && w.now == 0 && w.nextId == s.n && 0 in w.cells
    && (SECRET in w.names <==> s.named) && (s.named ==> w.names[SECRET] == 0)
    && StateOf(w, "env") == s.state
    && (forall key :: key in w.changes && key.environment == "env" ==> s.state.Some? && key.sequence <= s.state.value.sequence)
  }

  ghost predicate Looks(w: World, s: Shot) {
    TableLooks(w, s) && CellLooks(w.cells[0], s)
  }

  /** The shot after the client with this mutation has stored its objects and read the counter and the sequence. */
  function ReadyToCommit(s: Shot, o: Id, m: Mutation): Shot {
    s.(n := s.n + 3, objects := WithObjects(s.objects, m),
       ops := s.ops[o := Stored(m, Primed(s.state, if s.head.Some? then s.head.value.syncSequence else None))])
  }

  function WithObjects(objects: map<Key, Document>, m: Mutation): map<Key, Document> {
    var more := objects[ControlKey(m.control.version) := ControlDocument(m.control)];
    if m.newPayload && m.control.payload.Some? then more[PayloadKey(m.control.payload.value) := PayloadDocument] else more
  }

  const T1 := Shot(2, None, map[], map[], map[], map[1 := Resolved(Create)], false, None)
  const T2 := Shot(4, Some(H1), R1, map[], map[], map[1 := Leased(M1)], true, None)
  const T6 := Shot(8, Some(H2), R2, D1, map[], map[], true, Some(S1))
  const T8 := T6.(n := 10, ops := map[8 := Reading(Remove, Base(H2, First), map[], {}, None)])
  const T9 := T6.(n := 12, head := Some(H3), rows := R3, ops := map[8 := Leased(M2)])

  /** Both updates wait, and the archive commits. */
  function T14(second: Request): Shot {
    var s := ReadyToCommit(T9, 8, M2);
    s.(n := 17, ops := s.ops[15 := Resolved(Grant)][16 := Resolved(second)])
  }

  function Waiting(second: Request): map<Id, Op> {
    map[15 := Resolved(Grant), 16 := Resolved(second)]
  }

  function T15(second: Request): Shot { Shot(18, Some(H4), R4, D2, map[], Waiting(second), false, Some(S2)) }
  function T16(second: Request): Shot { T15(second).(n := 19, ops := Waiting(second)[15 := Q3]) }
  function T17(second: Request): Shot { T15(second).(n := 21, head := Some(H5), rows := R5, ops := Waiting(second)[15 := Leased(M3)]) }
  function T21(second: Request): Shot { Shot(25, Some(H6), R6, D3, A1, map[16 := Resolved(second)], false, Some(S3)) }

  const T22 := T21(Replace).(n := 26, ops := map[16 := Q4])
  const T24 := T21(Replace).(n := 28, ops := map[16 := Q6])
  const T25 := T21(Replace).(n := 30, head := Some(H7), rows := R7, ops := map[16 := Leased(M4)])

  // ---------------------------------------------------------------- the conditions of the commits

  lemma NoReaders()
    ensures Readers(map[]) == {}
  {
  }

  lemma Unchanged(m: Mutation, previous: Option<nat>)
    requires m.control.acl == map[] && m.prior == map[]
    ensures !AccessProjectionChanged(m.control, m.prior)
    ensures TransactionSize(m, previous) <= 100
  {
    NoReaders();
    assert ReadableBy(m.prior) == {};
  }

  lemma OneGrant(m: Mutation, k: Id, previous: Option<nat>)
    requires m.control.acl == map[k := true] && m.prior == map[]
    ensures AccessProjectionChanged(m.control, m.prior)
    ensures AccessItems(m.control, m.prior)
            == map[k := AccessRow(m.control.environment, m.control.secretId, true, m.control.version, m.control.payload, m.control.state)]
    ensures TransactionSize(m, previous) <= 100
  {
    var items := AccessItems(m.control, m.prior);
    assert items.Keys == {k};
    assert |items| == |items.Keys|;
    assert k in Readers(m.control.acl) && ReadableBy(m.prior) == {};
  }

  lemma CreateIsAllowed(c: Cell)
    requires c.head == Some(H1) && c.rows == R1
    ensures CommitAllowed(c, 1, M1, true, None)
  {
    Unchanged(M1, None);
    hide TransactionSize;
  }

  lemma CreateRows()
    ensures CommitRows(R1, M1, RETENTION_MILLISECONDS) == R2
  {
  }

  lemma ArchiveIsAllowed(c: Cell)
    requires c.head == Some(H3) && c.rows == R3
    ensures CommitAllowed(c, 8, M2, true, Some(1))
  {
    Unchanged(M2, Some(1));
    hide TransactionSize;
  }

  lemma ArchiveRows()
    ensures CommitRows(R3, M2, RETENTION_MILLISECONDS) == R4
  {
  }

  lemma GrantIsAllowed(c: Cell)
    requires c.head == Some(H5) && c.rows == R5
    ensures CommitAllowed(c, 15, M3, false, Some(2))
  {
    hide TransactionSize, AccessProjectionChanged, AccessItems;
    OneGrant(M3, READER, Some(2));
  }

  lemma GrantRows()
    ensures CommitRows(R5, M3, RETENTION_MILLISECONDS) == R6
  {
  }

  lemma ReplaceIsAllowed(c: Cell)
    requires c.head == Some(H7) && c.rows == R7
    ensures CommitAllowed(c, 16, M4, false, Some(3))
  {
    hide TransactionSize, AccessProjectionChanged, AccessItems;
    OneGrant(M4, OTHER, Some(3));
  }

  // ---------------------------------------------------------------- the run

  /** The whole run. */
  function Race(second: Request): seq<Step> {
    Opening(second) + Middle + Ending
  }

  /** The table after its first steps. */
  function Moment(second: Request, k: nat): World {
    if k == 0 then Genesis
    else if k <= |Race(second)| then Apply(Moment(second, k - 1), Race(second)[k - 1])
    else Moment(second, k - 1)
  }

  lemma {:induction false} MomentIsRun(second: Request, j: nat, k: nat)
    requires j <= k <= |Race(second)|
    ensures Run(Moment(second, j), Race(second)[j..k]) == Moment(second, k)
    decreases k - j
  {
    hide Apply, Race;
    if j < k {
      assert Race(second)[j..k][0] == Race(second)[j] && Race(second)[j..k][1..] == Race(second)[j + 1..k];
      MomentIsRun(second, j + 1, k);
    }
  }

  lemma MomentStep(second: Request, k: nat, step: Step)
    requires k < |Race(second)| && Race(second)[k] == step
    ensures Moment(second, k + 1) == Apply(Moment(second, k), step)
  {
    hide Apply, Race;
  }

  lemma StartsEmpty(second: Request)
    ensures Moment(second, 0) == Genesis
  {
    hide Apply, Race;
  }

  // ---------------------------------------------------------------- kinds of steps

  /** A client's step that moves its locals, and writes objects if it stores. */
  lemma ClientMoves(w: World, step: Step, s: Shot, o: Id, op: Op, objects: map<Key, Document>)
    requires Looks(w, s) && IsClientStep(step) && step.uid == 0 && o in s.ops
    requires ClientCell(w, w.cells[0], step) == w.cells[0].(objects := objects, ops := w.cells[0].ops[o := op])
    ensures Looks(Apply(w, step), s.(n := s.n + 1, objects := objects, ops := s.ops[o := op]))
  {
    hide Apply, ClientCell;
    StepIs(w, step);
  }

  lemma Snapshots(w: World, s: Shot, o: Id, request: Request, base: Base)
    requires Looks(w, s) && o in s.ops && s.ops[o] == Resolved(request) && ByName(request)
    requires s.head == Some(base.head) && base.head.control == request.expected && base.head.controlObject.Some?
    requires base.head.controlObject.value in s.objects && s.objects[base.head.controlObject.value] == ControlDocument(base.control)
    ensures Looks(Apply(w, TakeSnapshot(0, o)), s.(n := s.n + 1, ops := s.ops[o := Reading(request, base, map[], {}, None)]))
  {
    hide Apply, StateOf;
    ClientMoves(w, TakeSnapshot(0, o), s, o, Reading(request, base, map[], {}, None), s.objects);
  }

  /** A request that resolves the name. */
  lemma ResolvesName(w: World, s: Shot, request: Request)
    requires Looks(w, s) && s.named && ByName(request)
    ensures Looks(Apply(w, StartByName(request)), s.(n := s.n + 1, ops := s.ops[s.n := Resolved(request)]))
  {
    hide Apply;
    StartIs(w, request);
  }

  lemma StartIs(w: World, request: Request)
    requires ByName(request) && SECRET in w.names && w.names[SECRET] == 0
    ensures Apply(w, StartByName(request)) == StartStep(w, 0, request)
  {
    hide StartStep;
  }

  /** A request for the secret by its name. */
  predicate ByName(request: Request) {
    (request.UpdateByName? || request.ArchiveRequest?) && request.environment == "env" && request.secretId == "key"
  }

  lemma WritesAre(w: World, o: Id)
    ensures Apply(w, PrepareOp(0, o, 0)) == PrepareStep(w, 0, o, 0) && Apply(w, CommitOp(0, o, 0)) == CommitStep(w, 0, o, 0)
  {
    hide PrepareStep, CommitStep;
  }

  lemma Prepares(w: World, s: Shot, o: Id, m: Mutation, head: Head, rows: map<Key, Row>)
    requires Looks(w, s) && MutationOf(w.cells[0], o, s.n, s.n + 1, L) == Some(m) && PrepareAllowed(w.cells[0], m, !s.named, 0)
    requires (m.base.Some? ==> w.cells[0].head.Some?) && PrepareHead(w.cells[0], o, m) == head && WithRows(w.cells[0], o, m) == rows
    ensures Looks(Apply(w, PrepareOp(0, o, 0)),
                  s.(n := s.n + 2, head := Some(head), rows := rows, ops := s.ops[o := Leased(m)], named := s.named || s.head.None?))
  {
    hide Apply, Looks, CellLooks, MutationOf, PrepareAllowed, PrepareHead, WithRows;
    WritesAre(w, o);
    InTable(w, s);
    CellPrepares(w.cells[0], s, o, m, head, rows);
    var d := Prepare(w.cells[0], o, s.n, s.n + 1, !s.named, 0, L);
    PreparesInTable(w, s, o, d, s.(n := s.n + 2, head := Some(head), rows := rows, ops := s.ops[o := Leased(m)], named := s.named || s.head.None?));
  }

  lemma InTable(w: World, s: Shot)
    requires Looks(w, s)
    ensures 0 in w.cells && CellLooks(w.cells[0], s)
  {
    hide CellLooks;
  }

  lemma CellPrepares(c: Cell, s: Shot, o: Id, m: Mutation, head: Head, rows: map<Key, Row>)
    requires CellLooks(c, s) && MutationOf(c, o, s.n, s.n + 1, L) == Some(m) && PrepareAllowed(c, m, !s.named, 0)
    requires (m.base.Some? ==> c.head.Some?) && PrepareHead(c, o, m) == head && WithRows(c, o, m) == rows
    ensures CellLooks(Prepare(c, o, s.n, s.n + 1, !s.named, 0, L),
                      s.(n := s.n + 2, head := Some(head), rows := rows, ops := s.ops[o := Leased(m)], named := s.named || s.head.None?))
  {
    HasMutation(c, o, s.n);
    hide MutationOf, PrepareAllowed, PrepareHead, WithRows;
  }

  lemma PreparesInTable(w: World, s: Shot, o: Id, d: Cell, t: Shot)
    requires Looks(w, s) && d == Prepare(w.cells[0], o, s.n, s.n + 1, !s.named, 0, L) && CellLooks(d, t)
    requires t.n == s.n + 2 && t.head.Some? && t.named == (s.named || s.head.None?) && t.state == s.state
    ensures Looks(PrepareStep(w, 0, o, 0), t)
  {
    hide Prepare;
  }

  lemma HasMutation(c: Cell, o: Id, n: Id)
    ensures MutationOf(c, o, n, n + 1, L).Some? ==> o in c.ops
  {
  }

  lemma Stores(w: World, s: Shot, o: Id, m: Mutation)
    requires Looks(w, s) && o in s.ops && s.ops[o] == Leased(m)
    ensures Looks(Apply(w, StoreOp(0, o)), s.(n := s.n + 1, objects := WithObjects(s.objects, m), ops := s.ops[o := Stored(m, Unread)]))
  {
    hide Apply, StateOf;
    ClientMoves(w, StoreOp(0, o), s, o, Stored(m, Unread), WithObjects(s.objects, m));
  }

  lemma Counts(w: World, s: Shot, o: Id, m: Mutation)
    requires Looks(w, s) && o in s.ops && s.ops[o] == Stored(m, Unread)
    ensures Looks(Apply(w, CountOp(0, o)), s.(n := s.n + 1, ops := s.ops[o := Stored(m, Counted(s.state))]))
  {
    hide Apply, StateOf;
    ClientMoves(w, CountOp(0, o), s, o, Stored(m, Counted(s.state)), s.objects);
  }

  lemma Primes(w: World, s: Shot, o: Id, m: Mutation, state: Option<SyncState>)
    requires Looks(w, s) && o in s.ops && s.ops[o] == Stored(m, Counted(state))
    ensures Looks(Apply(w, PrimeOp(0, o)),
                  s.(n := s.n + 1, ops := s.ops[o := Stored(m, Primed(state, if s.head.Some? then s.head.value.syncSequence else None))]))
  {
    hide Apply, StateOf;
    ClientMoves(w, PrimeOp(0, o), s, o, Stored(m, Primed(state, if s.head.Some? then s.head.value.syncSequence else None)), s.objects);
  }

  /** Three steps of the run bring a prepared mutation to its commit. */
  lemma GetsReady(second: Request, k: nat, s: Shot, o: Id, m: Mutation)
    requires k + 3 <= |Race(second)| && Race(second)[k] == StoreOp(0, o) && Race(second)[k + 1] == CountOp(0, o) && Race(second)[k + 2] == PrimeOp(0, o)
    requires Looks(Moment(second, k), s) && o in s.ops && s.ops[o] == Leased(m)
    ensures Looks(Moment(second, k + 3), ReadyToCommit(s, o, m))
  {
    hide Apply, Looks, Moment, Race, WithObjects;
    MomentStep(second, k, StoreOp(0, o));
    Stores(Moment(second, k), s, o, m);
    var t := s.(n := s.n + 1, objects := WithObjects(s.objects, m), ops := s.ops[o := Stored(m, Unread)]);
    MomentStep(second, k + 1, CountOp(0, o));
    Counts(Moment(second, k + 1), t, o, m);
    var u := t.(n := t.n + 1, ops := t.ops[o := Stored(m, Counted(t.state))]);
    MomentStep(second, k + 2, PrimeOp(0, o));
    Primes(Moment(second, k + 2), u, o, m, s.state);
    assert u.ops[o := ReadyToCommit(s, o, m).ops[o]] == ReadyToCommit(s, o, m).ops;
  }

  /** A commit whose conditions hold publishes the next sequence, and an archive drops the name. */
  lemma CommitMoves(w: World, o: Id, m: Mutation, previous: Option<nat>, s: Shot, t: Shot)
    requires Looks(w, s) && o in s.ops && s.ops[o] == Stored(m, Primed(s.state, previous)) && m.control.environment == "env"
    requires CommitAllowed(w.cells[0], o, m, s.named, previous) && NextSequence(s.state) <= MAX_SAFE_INTEGER
    requires w.cells[0].head.Some? && CellLooks(CommitMutation(w.cells[0], o, m, NextSequence(s.state), RETENTION_MILLISECONDS), t)
    requires t.n == s.n + 1 && t.named == (s.named && !m.archive)
    requires t.state == Some(if s.state.Some? then s.state.value.(sequence := NextSequence(s.state)) else SyncState(s.n, 1, false))
    ensures Looks(Apply(w, CommitOp(0, o, 0)), t)
    ensures Apply(w, CommitOp(0, o, 0)).cells[0] == CommitMutation(w.cells[0], o, m, NextSequence(s.state), RETENTION_MILLISECONDS)
  {
    hide Apply, CommitAllowed, CommitMutation, ChangeTtl, SyncRecordOf, AfterFailure;
    WritesAre(w, o);
  }

  /** What the commit makes of the secret. */
  lemma CellCommits(c: Cell, o: Id, m: Mutation, sequence: nat, s: Shot, t: Shot)
    requires CellLooks(c, s) && c.head.Some? && s.n <= t.n
    requires t.head == Some(CommitHead(c.head.value, m, sequence)) && t.rows == CommitRows(s.rows, m, RETENTION_MILLISECONDS)
    requires t.objects == s.objects
    requires t.access == if AccessProjectionChanged(m.control, m.prior) then s.access + AccessItems(m.control, m.prior) else s.access
    requires o in s.ops && forall x :: x in t.ops ==> x != o && x in s.ops && t.ops[x] == s.ops[x]
    ensures var d := CommitMutation(c, o, m, sequence, RETENTION_MILLISECONDS);
            CellLooks(d, t) && |d.log| > 0 && CurrentControl(d) == m.control
  {
    hide CommitHead, CommitRows, AccessProjectionChanged, AccessItems;
  }

  // ---------------------------------------------------------------- the race, step by step

  lemma CreatePrepares(w: World)
    requires Looks(w, T1)
    ensures Looks(Apply(w, PrepareOp(0, 1, 0)), T2)
  {
    hide Apply;
    Prepares(w, T1, 1, M1, H1, R1);
    assert T1.ops[1 := Leased(M1)] == T2.ops;
  }

  lemma CreateCommits(w: World)
    requires Looks(w, ReadyToCommit(T2, 1, M1))
    ensures Looks(Apply(w, CommitOp(0, 1, 0)), T6)
  {
    hide Apply, CommitAllowed, CommitMutation;
    CreateIsAllowed(w.cells[0]);
    CreateCellCommits(w.cells[0]);
    CommitMoves(w, 1, M1, None, ReadyToCommit(T2, 1, M1), T6);
  }

  lemma CreateCellCommits(c: Cell)
    requires CellLooks(c, ReadyToCommit(T2, 1, M1)) && c.head == Some(H1)
    ensures CellLooks(CommitMutation(c, 1, M1, 1, RETENTION_MILLISECONDS), T6)
  {
    hide CellLooks, CommitMutation, CommitRows, AccessProjectionChanged, AccessItems;
    CreateRows();
    Unchanged(M1, None);
    CellCommits(c, 1, M1, 1, ReadyToCommit(T2, 1, M1), T6);
  }

  lemma CreateStarts()
    ensures Looks(Apply(Genesis, StartCreate(Create)), T1)
  {
  }

  lemma CreateUnderway(second: Request)
    ensures Looks(Moment(second, 2), T2)
  {
    hide Apply, Looks, Moment;
    StartsEmpty(second);
    MomentStep(second, 0, StartCreate(Create));
    CreateStarts();
    MomentStep(second, 1, PrepareOp(0, 1, 0));
    CreatePrepares(Moment(second, 1));
  }

  lemma Created(second: Request)
    ensures Looks(Moment(second, 6), T6)
  {
    hide Apply, Looks, Moment, ReadyToCommit;
    CreateUnderway(second);
    GetsReady(second, 2, T2, 1, M1);
    MomentStep(second, 5, CommitOp(0, 1, 0));
    CreateCommits(Moment(second, 5));
  }

  lemma ArchiveReads(w: World)
    requires Looks(w, T6)
    ensures Looks(Apply(Apply(w, StartByName(Remove)), TakeSnapshot(0, 8)), T8)
  {
    hide Apply, Looks;
    ResolvesName(w, T6, Remove);
    var t := T6.(n := 9, ops := T6.ops[8 := Resolved(Remove)]);
    Snapshots(Apply(w, StartByName(Remove)), t, 8, Remove, Base(H2, First));
    assert t.ops[8 := Reading(Remove, Base(H2, First), map[], {}, None)] == T8.ops;
  }

  lemma ArchivePrepares(w: World)
    requires Looks(w, T8)
    ensures Looks(Apply(w, PrepareOp(0, 8, 0)), T9)
  {
    hide Apply;
    Prepares(w, T8, 8, M2, H3, R3);
    assert T8.ops[8 := Leased(M2)] == T9.ops;
  }

  lemma ArchiveUnderway(second: Request)
    ensures Looks(Moment(second, 9), T9)
  {
    hide Apply, Looks, Moment;
    Created(second);
    MomentStep(second, 6, StartByName(Remove));
    MomentStep(second, 7, TakeSnapshot(0, 8));
    ArchiveReads(Moment(second, 6));
    MomentStep(second, 8, PrepareOp(0, 8, 0));
    ArchivePrepares(Moment(second, 8));
  }

  lemma ArchiveStored(second: Request)
    ensures Looks(Moment(second, 12), ReadyToCommit(T9, 8, M2))
  {
    hide Apply, Looks, Moment, ReadyToCommit;
    ArchiveUnderway(second);
    GetsReady(second, 9, T9, 8, M2);
  }

  /** Two more requests have resolved the name, and the archive is about to commit. */
  lemma BothResolved(second: Request)
    requires ByName(second)
    ensures Looks(Moment(second, 14), T14(second)) && Moment(second, 13).nextId == 16
  {
    hide Apply, Looks, Moment;
    ArchiveStored(second);
    var s := ReadyToCommit(T9, 8, M2);
    MomentStep(second, 12, StartByName(Grant));
    ResolvesName(Moment(second, 12), s, Grant);
    var t := s.(n := 16, ops := s.ops[15 := Resolved(Grant)]);
    NextIdOf(Moment(second, 13), t);
    MomentStep(second, 13, StartByName(second));
    ResolvesName(Moment(second, 13), t, second);
  }

  lemma NextIdOf(w: World, s: Shot)
    requires Looks(w, s)
    ensures w.nextId == s.n && (s.named ==> LookupName(w, "env", "key") == Some(0))
  {
  }

  lemma ArchiveCommits(w: World, second: Request)
    requires Looks(w, T14(second))
    ensures Looks(Apply(w, CommitOp(0, 8, 0)), T15(second))
  {
    hide Apply, CommitAllowed, CommitMutation;
    ArchiveIsAllowed(w.cells[0]);
    ArchiveCellCommits(w.cells[0], second);
    CommitMoves(w, 8, M2, Some(1), T14(second), T15(second));
  }

  lemma ArchiveCellCommits(c: Cell, second: Request)
    requires CellLooks(c, T14(second)) && c.head == Some(H3)
    ensures CellLooks(CommitMutation(c, 8, M2, 2, RETENTION_MILLISECONDS), T15(second))
  {
    hide CellLooks, CommitMutation, CommitRows, AccessProjectionChanged, AccessItems;
    ArchiveRows();
    Unchanged(M2, Some(1));
    CellCommits(c, 8, M2, 2, T14(second), T15(second));
  }

  lemma GrantReads(w: World, second: Request)
    requires Looks(w, T15(second))
    ensures Looks(Apply(w, TakeSnapshot(0, 15)), T16(second))
  {
    hide Apply, Looks;
    Snapshots(w, T15(second), 15, Grant, Base(H4, Archive));
  }

  lemma GrantPrepares(w: World, second: Request)
    requires Looks(w, T16(second))
    ensures Looks(Apply(w, PrepareOp(0, 15, 0)), T17(second))
  {
    hide Apply;
    Prepares(w, T16(second), 15, M3, H5, R5);
    assert T16(second).ops[15 := Leased(M3)] == T17(second).ops;
  }

  lemma GrantCommits(w: World, second: Request)
    requires Looks(w, ReadyToCommit(T17(second), 15, M3))
    ensures var v := Apply(w, CommitOp(0, 15, 0));
            Looks(v, T21(second)) && |v.cells[0].log| > 0 && CurrentControl(v.cells[0]) == Late
  {
    hide Apply, CommitAllowed, CommitMutation;
    GrantIsAllowed(w.cells[0]);
    GrantCellCommits(w.cells[0], second);
    CommitMoves(w, 15, M3, Some(2), ReadyToCommit(T17(second), 15, M3), T21(second));
  }

  lemma GrantParts(second: Request)
    ensures ReadyToCommit(T17(second), 15, M3).objects == D3 && ReadyToCommit(T17(second), 15, M3).rows == R5
    ensures map[] + A1 == A1
  {
  }

  lemma GrantCellCommits(c: Cell, second: Request)
    requires CellLooks(c, ReadyToCommit(T17(second), 15, M3)) && c.head == Some(H5)
    ensures var d := CommitMutation(c, 15, M3, 3, RETENTION_MILLISECONDS);
            CellLooks(d, T21(second)) && |d.log| > 0 && CurrentControl(d) == Late
  {
    hide CellLooks, CommitMutation, CommitRows, AccessProjectionChanged, AccessItems, TransactionSize;
    GrantRows();
    OneGrant(M3, READER, Some(2));
    GrantParts(second);
    CellCommits(c, 15, M3, 3, ReadyToCommit(T17(second), 15, M3), T21(second));
  }

  lemma Granted(second: Request)
    requires ByName(second)
    ensures Looks(Moment(second, 21), T21(second))
    ensures |Moment(second, 21).cells[0].log| > 0 && CurrentControl(Moment(second, 21).cells[0]) == Late
  {
    hide Apply, Looks, Moment, ReadyToCommit;
    BothResolved(second);
    MomentStep(second, 14, CommitOp(0, 8, 0));
    ArchiveCommits(Moment(second, 14), second);
    MomentStep(second, 15, TakeSnapshot(0, 15));
    GrantReads(Moment(second, 15), second);
    MomentStep(second, 16, PrepareOp(0, 15, 0));
    GrantPrepares(Moment(second, 16), second);
    GetsReady(second, 17, T17(second), 15, M3);
    MomentStep(second, 20, CommitOp(0, 15, 0));
    GrantCommits(Moment(second, 20), second);
  }

  lemma ReplaceReads(w: World)
    requires Looks(w, T21(Replace))
    ensures Looks(Apply(w, TakeSnapshot(0, 16)), T22)
  {
    hide Apply, Looks;
    Snapshots(w, T21(Replace), 16, Replace, Base(H6, Late));
    assert T21(Replace).ops[16 := Q4] == T22.ops;
  }

  /** The name finds nothing, so no access row is read. */
  lemma ReplaceFindsNoRow(w: World)
    requires Looks(w, T22)
    ensures Looks(Apply(Apply(w, ResolveGrant(0, 16, READER)), FetchGrant(0, 16)), T24)
  {
    hide Apply;
    ClientMoves(w, ResolveGrant(0, 16, READER), T22, 16, Q5, D3);
    FetchesNoRow(Apply(w, ResolveGrant(0, 16, READER)));
  }

  lemma FetchesNoRow(w: World)
    requires Looks(w, T22.(n := 27, ops := map[16 := Q4][16 := Q5]))
    ensures Looks(Apply(w, FetchGrant(0, 16)), T24)
  {
    hide Apply, ClientCell, Looks;
    var s := T22.(n := 27, ops := map[16 := Q4][16 := Q5]);
    LookupShot(w, s);
    NothingFetched(w);
    FetchShot();
    FetchMoves(w, s);
  }

  lemma FetchMoves(w: World, s: Shot)
    requires Looks(w, s) && 16 in s.ops && 0 in w.cells && w.cells[0].objects == s.objects
    requires ClientCell(w, w.cells[0], FetchGrant(0, 16)) == w.cells[0].(ops := w.cells[0].ops[16 := Q6])
    ensures Looks(Apply(w, FetchGrant(0, 16)), s.(n := s.n + 1, ops := s.ops[16 := Q6]))
  {
    hide Apply, ClientCell, Looks;
    ClientMoves(w, FetchGrant(0, 16), s, 16, Q6, s.objects);
  }

  lemma FetchShot()
    ensures T22.(n := 28, ops := map[16 := Q4][16 := Q5][16 := Q6]) == T24
  {
    assert map[16 := Q4][16 := Q5][16 := Q6] == map[16 := Q6];
  }

  lemma LookupShot(w: World, s: Shot)
    requires Looks(w, s) && s.ops == map[16 := Q5]
    ensures 0 in w.cells && 16 in w.cells[0].ops && w.cells[0].ops[16] == Q5 && w.cells[0].objects == s.objects
  {
  }

  lemma NothingFetched(w: World)
    requires 0 in w.cells && 16 in w.cells[0].ops && w.cells[0].ops[16] == Q5
    ensures ClientCell(w, w.cells[0], FetchGrant(0, 16)) == w.cells[0].(ops := w.cells[0].ops[16 := Q6])
  {
    assert Q5.prior - {READER} == map[] && Q5.read + {READER} == {READER};
  }

  lemma ReplacePrepares(w: World)
    requires Looks(w, T24)
    ensures Looks(Apply(w, PrepareOp(0, 16, 0)), T25)
  {
    hide Apply, Looks, MutationOf, PrepareAllowed, PrepareHead, WithRows;
    ReplaceShot(w);
    ReplaceMutation(w.cells[0]);
    Prepares(w, T24, 16, M4, H7, R7);
    assert T24.ops[16 := Leased(M4)] == T25.ops;
  }

  lemma ReplaceShot(w: World)
    requires Looks(w, T24)
    ensures 0 in w.cells && 16 in w.cells[0].ops && w.cells[0].ops[16] == Q6 && w.cells[0].rows == R6 && w.cells[0].head == Some(H6)
  {
  }

  lemma ReplaceMutation(c: Cell)
    requires 16 in c.ops && c.ops[16] == Q6 && c.rows == R6 && c.head == Some(H6)
    ensures MutationOf(c, 16, 28, 29, L) == Some(M4) && PrepareAllowed(c, M4, true, 0)
    ensures WithRows(c, 16, M4) == R7 && PrepareHead(c, 16, M4) == H7
  {
    assert Q6.read == Q6.base.control.acl.Keys;
  }

  const T29 := T25.(n := 34, head := Some(CommitHead(H7, M4, 4)), rows := CommitRows(R7, M4, RETENTION_MILLISECONDS), objects := D4,
                    access := A1 + AccessItems(Taken, map[]), ops := map[], state := Some(SyncState(7, 4, false)))

  lemma ReplaceCommits(w: World)
    requires Looks(w, ReadyToCommit(T25, 16, M4))
    ensures var v := Apply(w, CommitOp(0, 16, 0));
            Looks(v, T29) && |v.cells[0].log| > 0 && CurrentControl(v.cells[0]) == Taken
  {
    hide Apply, CommitAllowed, CommitMutation, CommitRows, AccessItems;
    ReplaceIsAllowed(w.cells[0]);
    ReplaceCellCommits(w.cells[0]);
    CommitMoves(w, 16, M4, Some(3), ReadyToCommit(T25, 16, M4), T29);
  }

  lemma ReplaceCellCommits(c: Cell)
    requires CellLooks(c, ReadyToCommit(T25, 16, M4)) && c.head == Some(H7)
    ensures var d := CommitMutation(c, 16, M4, 4, RETENTION_MILLISECONDS);
            CellLooks(d, T29) && |d.log| > 0 && CurrentControl(d) == Taken
  {
    hide CellLooks, CommitMutation, CommitRows, CommitHead, AccessProjectionChanged, AccessItems, TransactionSize;
    OneGrant(M4, OTHER, Some(3));
    CellCommits(c, 16, M4, 4, ReadyToCommit(T25, 16, M4), T29);
  }

  lemma FirstReaderStays()
    ensures READER in T29.access && T29.access[READER] == A1[READER]
    ensures T29.head.value.ready && T29.head.value.state == Active
  {
    hide CommitRows, AccessItems;
    OneGrant(M4, OTHER, Some(3));
  }

  lemma ReplaceSnapshot()
    ensures Looks(Moment(Replace, 22), T22)
  {
    hide Apply, Looks, Moment;
    Granted(Replace);
    MomentStep(Replace, 21, TakeSnapshot(0, 16));
    ReplaceReads(Moment(Replace, 21));
  }

  lemma ReplaceUnderway()
    ensures Looks(Moment(Replace, 25), T25)
  {
    hide Apply, Looks, Moment;
    ReplaceSnapshot();
    MomentStep(Replace, 22, ResolveGrant(0, 16, READER));
    MomentStep(Replace, 23, FetchGrant(0, 16));
    ReplaceFindsNoRow(Moment(Replace, 22));
    MomentStep(Replace, 24, PrepareOp(0, 16, 0));
    ReplacePrepares(Moment(Replace, 24));
  }

  lemma Replaced()
    ensures var v := Moment(Replace, 29);
            && 0 in v.cells && NameKey(v.cells[0]) == SECRET && IsReady(v.cells[0]) && v.cells[0].head.value.state == Active
            && |v.cells[0].log| > 0 && CurrentControl(v.cells[0]) == Taken
            && READER in v.cells[0].access && v.cells[0].access[READER] == A1[READER]
  {
    hide Apply, Looks, Moment, ReadyToCommit;
    ReplaceUnderway();
    GetsReady(Replace, 25, T25, 16, M4);
    MomentStep(Replace, 28, CommitOp(0, 16, 0));
    ReplaceCommits(Moment(Replace, 28));
    ReaderIsLeft(Moment(Replace, 29));
  }

  lemma ReaderIsLeft(w: World)
    requires Looks(w, T29)
    ensures 0 in w.cells && NameKey(w.cells[0]) == SECRET && IsReady(w.cells[0]) && w.cells[0].head.value.state == Active
    ensures READER in w.cells[0].access && w.cells[0].access[READER] == A1[READER]
  {
    hide CommitRows, AccessItems, CommitHead;
    FirstReaderStays();
  }
}
