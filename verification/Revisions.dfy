/**
 * One secret: its HEAD, its CONTROL and PAYLOAD workflow rows, its immutable objects, its access rows and
 * every client working on it. Each function below is one atomic step; a step whose condition fails
 * leaves the table alone, exactly as a cancelled conditional transaction does.
 */
module Revisions {
  import opened Domain

  /** Names a workflow row, and the immutable object written for it. */
  datatype Key = ControlKey(version: Id) | PayloadKey(version: Id)

  datatype Document = ControlDocument(control: Control) | PayloadDocument

  datatype Workflow = Prepared | Ready | Retryable | Deleted

  datatype Row = Row(
    operation: Id,
    workflow: Workflow,
    written: Option<Key>,
    expires: nat,
    control: Option<Control>,
    retentionDue: Option<nat>)

  datatype Lease = Lease(owner: Id, expires: nat)

  datatype Head = Head(
    control: Id,
    controlObject: Option<Key>,
    payload: Option<Id>,
    payloadObject: Option<Key>,
    state: SecretState,
    metadata: string,
    ready: bool,
    lease: Option<Lease>,
    syncSequence: Option<nat>)

  datatype Request =
    | CreateRequest(environment: Name, secretId: Name, metadata: string, acl: Acl)
    | UpdateByName(environment: Name, secretId: Name, expected: Id, newMetadata: Option<string>,
                   newAcl: Option<Acl>, withPayload: bool)
    | UpdateByUid(environment: Name, secretId: Name, expected: Id, newMetadata: Option<string>,
                  withPayload: bool)
    | ArchiveRequest(environment: Name, secretId: Name, expected: Id)

  /** What a client read before it computed its mutation. */
  datatype Base = Base(head: Head, control: Control)

  datatype Mutation = Mutation(
    archive: bool,
    control: Control,
    newPayload: bool,
    base: Option<Base>,
    prior: map<Id, AccessRow>,
    expires: nat)

  /** Progress of the publish loop: nothing read, STATE read, or STATE and then the head's sequence read. */
  datatype Stage =
    | Unread
    | Counted(state: Option<SyncState>)
    | Primed(state: Option<SyncState>, previous: Option<nat>)

  datatype AccessLookup = AccessLookup(consumer: Id, uid: Option<Id>)

  /** A client program, with the local variables it has read so far. */
  datatype Op =
    | Resolved(request: Request)
    | Reading(request: Request, base: Base, prior: map<Id, AccessRow>, read: set<Id>, lookup: Option<AccessLookup>)
    | Leased(mutation: Mutation)
    | Stored(mutation: Mutation, stage: Stage)
    | Committed(mutation: Mutation)
    | Backfill(control: Id)
    | Backfilling(record: Control, backfillStage: Stage)
    | Stopped(last: Option<Mutation>)

  /** One item of the retention loop: listed, found not current, object deleted. */
  datatype Job = Listed(key: Key) | Superseded(key: Key) | ObjectDeleted(key: Key)

  /** A committed control revision and the revision it was computed from. */
  datatype Commit = Commit(control: Control, base: Option<Control>)

  datatype Cell = Cell(
    environment: Name,
    secretId: Name,
    head: Option<Head>,
    rows: map<Key, Row>,
    objects: map<Key, Document>,
    access: map<Id, AccessRow>,
    ops: map<Id, Op>,
    jobs: map<Id, Job>,
    log: seq<Commit>)

  // ---------------------------------------------------------------- helpers

  predicate InFlight(op: Op) {
    op.Leased? || op.Stored?
  }

  /** The mutation a client has prepared, whatever became of it. */
  function MutationPrepared(op: Op): Option<Mutation> {
    match op
    case Leased(m) => Some(m)
    case Stored(m, _) => Some(m)
    case Committed(m) => Some(m)
    case Stopped(last) => last
    case _ => None
  }

  predicate Settled(row: Row) {
    row.workflow == Ready || row.workflow == Deleted
  }

  predicate HasRow(c: Cell, key: Key, workflow: Workflow) {
    key in c.rows && c.rows[key].workflow == workflow
  }

  /** The retention handler's `isCurrent`. */
  predicate IsCurrent(key: Key, head: Option<Head>) {
    head.Some? &&
    (key == ControlKey(head.value.control) ||
     (head.value.payload.Some? && key == PayloadKey(head.value.payload.value)))
  }

  predicate IsReady(c: Cell) {
    c.head.Some? && c.head.value.ready
  }

  /** The revision a request builds; version and payload ids are fresh. */
  function NextControl(request: Request, base: Control, version: Id, payload: Id): Control
    requires !request.CreateRequest?
  {
    match request
    case UpdateByName(environment, secretId, _, metadata, acl, withPayload) =>
      Control(version, base.environment, secretId,
              if withPayload then Some(payload) else base.payload,
              if withPayload then Active else base.state,
              if metadata.Some? then metadata.value else base.metadata,
              if acl.Some? then acl.value else base.acl)
    case UpdateByUid(environment, secretId, _, metadata, withPayload) =>
      Control(version, base.environment, secretId,
              if withPayload then Some(payload) else base.payload,
              if withPayload then Active else base.state,
              if metadata.Some? then metadata.value else base.metadata,
              base.acl)
    case ArchiveRequest(_, _, _) =>
      base.(version := version, state := Archived, acl := map[])
  }

  predicate WritesPayload(request: Request) {
    (request.UpdateByName? || request.UpdateByUid?) && request.withPayload
  }

  // ---------------------------------------------------------------- mutation steps

  function Begin(c: Cell, o: Id, request: Request): Cell {
    if o in c.ops then c else c.(ops := c.ops[o := Resolved(request)])
  }

  /** Reads HEAD and its immutable control object, and compares If-Match. */
  function ReadHead(c: Cell, o: Id): Cell {
    if o !in c.ops || !c.ops[o].Resolved? || c.ops[o].request.CreateRequest? then c
    else
      var request := c.ops[o].request;
      if c.head.Some? && c.head.value.controlObject.Some? && c.head.value.controlObject.value in c.objects
         && c.objects[c.head.value.controlObject.value].ControlDocument?
         && request.expected == c.head.value.control
         && (request.UpdateByUid? ==>
               var document := c.objects[c.head.value.controlObject.value].control;
               document.environment == request.environment && document.secretId == request.secretId)
      then
        var document := c.objects[c.head.value.controlObject.value].control;
        c.(ops := c.ops[o := Reading(request, Base(c.head.value, document), map[], {}, None)])
      else c.(ops := c.ops[o := Stopped(None)])
  }

  /** Resolves the name once more for one grant of the current ACL. */
  function ResolveAccess(c: Cell, o: Id, consumer: Id, found: Option<Id>): Cell {
    if o in c.ops && c.ops[o].Reading? && consumer in c.ops[o].base.control.acl then
      c.(ops := c.ops[o := c.ops[o].(lookup := Some(AccessLookup(consumer, found)))])
    else c
  }

  /** Reads the access row below the UID that the last lookup returned. */
  function FetchAccess(c: Cell, o: Id, row: Option<AccessRow>): Cell {
    if o in c.ops && c.ops[o].Reading? && c.ops[o].lookup.Some? then
      var op := c.ops[o];
      var k := op.lookup.value.consumer;
      c.(ops := c.ops[o := op.(lookup := None, read := op.read + {k},
                               prior := if row.Some? then op.prior[k := row.value] else op.prior - {k})])
    else c
  }

  function WithRows(c: Cell, o: Id, m: Mutation): map<Key, Row> {
    var rows := c.rows[ControlKey(m.control.version) := Row(o, Prepared, None, m.expires, Some(m.control), None)];
    if m.newPayload && m.control.payload.Some?
    then rows[PayloadKey(m.control.payload.value) := Row(o, Prepared, None, m.expires, None, None)]
    else rows
  }

  predicate RowsAbsent(c: Cell, m: Mutation) {
    ControlKey(m.control.version) !in c.rows &&
    (m.newPayload && m.control.payload.Some? ==> PayloadKey(m.control.payload.value) !in c.rows)
  }

  /** The mutation that `persistMutation` sends once every prior access row has been read. */
  function MutationOf(c: Cell, o: Id, version: Id, payload: Id, expires: nat): Option<Mutation> {
    if o !in c.ops then None
    else match c.ops[o]
      case Resolved(request) =>
        if request.CreateRequest? then
          Some(Mutation(false,
                        Control(version, request.environment, request.secretId, None, PendingValue,
                                request.metadata, request.acl),
                        false, None, map[], expires))
        else None
      case Reading(request, base, prior, read, _) =>
        if !request.CreateRequest? && read == base.control.acl.Keys then
          Some(Mutation(request.ArchiveRequest?, NextControl(request, base.control, version, payload),
                        WritesPayload(request), Some(base), prior, expires))
        else None
      case _ => None
  }

  /** Whether the prepare transaction's conditions hold; `nameFree` is the LOOKUP condition of a create. */
  predicate PrepareAllowed(c: Cell, m: Mutation, nameFree: bool, now: nat) {
    RowsAbsent(c, m) &&
    (match m.base
     case None => c.head.None? && nameFree
     case Some(base) =>
       c.head.Some? && c.head.value.control == base.head.control
       && (c.head.value.lease.None? || c.head.value.lease.value.expires < now))
  }

  function PrepareHead(c: Cell, o: Id, m: Mutation): Head
    requires m.base.Some? ==> c.head.Some?
  {
    if m.base.None? then
      Head(m.control.version, None, m.control.payload, None, m.control.state, m.control.metadata, false,
           Some(Lease(o, m.expires)), None)
    else c.head.value.(lease := Some(Lease(o, m.expires)))
  }

  /** `prepareMutation`: takes the revision lease and records the PREPARED rows, or throws. */
  function Prepare(c: Cell, o: Id, version: Id, payload: Id, nameFree: bool, now: nat, expires: nat): Cell {
    var mutation := MutationOf(c, o, version, payload, expires);
    if mutation.None? then c
    else if PrepareAllowed(c, mutation.value, nameFree, now) then
      c.(head := Some(PrepareHead(c, o, mutation.value)), rows := WithRows(c, o, mutation.value),
         ops := c.ops[o := Leased(mutation.value)])
    else c.(ops := c.ops[o := Stopped(None)])
  }

  /** Writes the control object, and the payload object when there is one. */
  function StoreObjects(c: Cell, o: Id): Cell {
    if o in c.ops && c.ops[o].Leased? then
      var m := c.ops[o].mutation;
      var objects := c.objects[ControlKey(m.control.version) := ControlDocument(m.control)];
      c.(objects := if m.newPayload && m.control.payload.Some?
                    then objects[PayloadKey(m.control.payload.value) := PayloadDocument] else objects,
         ops := c.ops[o := Stored(m, Unread)])
    else c
  }

  function WithStage(op: Op, stage: Stage): Op
    requires op.Stored? || op.Backfilling?
  {
    if op.Stored? then op.(stage := stage) else op.(backfillStage := stage)
  }

  function StageOf(op: Op): Stage
    requires op.Stored? || op.Backfilling?
  {
    if op.Stored? then op.stage else op.backfillStage
  }

  /** The first read of a publish attempt; a retry starts here again. */
  function ReadCounter(c: Cell, o: Id, state: Option<SyncState>): Cell {
    if o in c.ops && (c.ops[o].Stored? || c.ops[o].Backfilling?) then
      c.(ops := c.ops[o := WithStage(c.ops[o], Counted(state))])
    else c
  }

  function SequenceOf(c: Cell): Option<nat> {
    if c.head.Some? then c.head.value.syncSequence else None
  }

  /** The second read of a publish attempt: the head's stored sequence, if there is a head. */
  function ReadPrevious(c: Cell, o: Id): Cell {
    if o in c.ops && (c.ops[o].Stored? || c.ops[o].Backfilling?) && StageOf(c.ops[o]).Counted? then
      c.(ops := c.ops[o := WithStage(c.ops[o], Primed(StageOf(c.ops[o]).state, SequenceOf(c)))])
    else c
  }

  /** Actions in the commit transaction, counted as the service builds them. */
  function TransactionSize(m: Mutation, previous: Option<nat>): nat {
    var changed := AccessProjectionChanged(m.control, m.prior);
    var items := AccessItems(m.control, m.prior);
    var notified := if changed then ReadableBy(items) else Readers(m.control.acl);
    var revoked := if changed then items.Keys - ReadableBy(items) else {};
    4 + (if m.newPayload then 1 else 0)
    + (if m.base.None? then 0 else if m.base.value.head.payload.Some? then 2 else 1)
    + (if m.archive then 1 else 0)
    + (if changed then |items| else 0)
    + (if notified != {} then 1 else 0) + (if revoked != {} then 1 else 0)
    + (if previous.Some? then 1 else 0)
  }

  /** The conditions of the commit transaction other than the counter's; `resolves` is the LOOKUP's. */
  predicate CommitAllowed(c: Cell, o: Id, m: Mutation, resolves: bool, previous: Option<nat>) {
    c.head.Some? && c.head.value.lease.Some? && c.head.value.lease.value.owner == o
    && HasRow(c, ControlKey(m.control.version), Prepared)
    && (m.newPayload && m.control.payload.Some? ==> HasRow(c, PayloadKey(m.control.payload.value), Prepared))
    && (m.base.Some? ==>
          HasRow(c, ControlKey(m.base.value.head.control), Ready)
          && (m.base.value.head.payload.Some? ==> HasRow(c, PayloadKey(m.base.value.head.payload.value), Ready)))
    && (m.archive ==> resolves)
    && TransactionSize(m, previous) <= 100
  }

  function CommitHead(h: Head, m: Mutation, sequence: nat): Head {
    var payload := if m.newPayload then m.control.payload else if m.base.Some? then m.base.value.head.payload else None;
    var written :=
      if m.newPayload && m.control.payload.Some? then Some(PayloadKey(m.control.payload.value))
      else if m.base.Some? then m.base.value.head.payloadObject else None;
    var complete := payload.Some? && written.Some?;
    Head(m.control.version, Some(ControlKey(m.control.version)),
         if complete then payload else None, if complete then written else None,
         m.control.state, m.control.metadata, true, None, Some(sequence))
  }

  function MadeReady(row: Row, key: Key): Row {
    row.(workflow := Ready, written := Some(key))
  }

  /** READY for the operation's own rows, a retention date for the rows of the revision it replaces. */
  function CommitRows(rows: map<Key, Row>, m: Mutation, due: nat): map<Key, Row> {
    map key | key in rows ::
      if key == ControlKey(m.control.version)
         || (m.newPayload && m.control.payload.Some? && key == PayloadKey(m.control.payload.value))
      then MadeReady(rows[key], key)
      else if m.base.Some? && IsCurrent(key, Some(m.base.value.head)) then rows[key].(retentionDue := Some(due))
      else rows[key]
  }

  /** `completeMutation`, with the sync sequence its publication was assigned. */
  function CommitMutation(c: Cell, o: Id, m: Mutation, sequence: nat, due: nat): Cell
    requires c.head.Some?
  {
    c.(head := Some(CommitHead(c.head.value, m, sequence)),
       rows := CommitRows(c.rows, m, due),
       access := if AccessProjectionChanged(m.control, m.prior) then c.access + AccessItems(m.control, m.prior)
                 else c.access,
       ops := c.ops[o := Committed(m)],
       log := c.log + [Commit(m.control, if m.base.Some? then Some(m.base.value.control) else None)])
  }

  // ---------------------------------------------------------------- recovery

  /** Recovery marks an expired PREPARED row; it can reach the rows of one operation separately. */
  function MarkRetryable(c: Cell, key: Key, now: nat): Cell {
    if HasRow(c, key, Prepared) && c.rows[key].expires < now
    then c.(rows := c.rows[key := c.rows[key].(workflow := Retryable)])
    else c
  }

  predicate HasRetryable(c: Cell, o: Id) {
    exists key :: key in c.rows && c.rows[key].operation == o && c.rows[key].workflow == Retryable
  }

  predicate AbortAllowed(c: Cell, o: Id, resolves: bool) {
    HasRetryable(c, o) && c.head.Some? && !c.head.value.ready
    && c.head.value.lease.Some? && c.head.value.lease.value.owner == o && resolves
  }

  /** `abortPreparedCreate`: removes the still-prepared head (and, with it, the LOOKUP). */
  function AbortCreate(c: Cell, o: Id, resolves: bool): Cell {
    if AbortAllowed(c, o, resolves) then c.(head := None) else c
  }

  function ReleaseLease(c: Cell, o: Id): Cell {
    if HasRetryable(c, o) && c.head.Some? && c.head.value.lease.Some? && c.head.value.lease.value.owner == o
    then c.(head := Some(c.head.value.(lease := None)))
    else c
  }

  // ---------------------------------------------------------------- retention

  function ListRetention(c: Cell, j: Id, key: Key, now: nat): Cell {
    if j !in c.jobs && HasRow(c, key, Ready) && c.rows[key].written.Some?
       && c.rows[key].retentionDue.Some? && c.rows[key].retentionDue.value <= now
    then c.(jobs := c.jobs[j := Listed(key)])
    else c
  }

  /** The handler's head read: a row the head still names is skipped. */
  function CheckRetention(c: Cell, j: Id): Cell {
    if j in c.jobs && c.jobs[j].Listed? then
      if IsCurrent(c.jobs[j].key, c.head) then c.(jobs := c.jobs - {j})
      else c.(jobs := c.jobs[j := Superseded(c.jobs[j].key)])
    else c
  }

  /** Deletes the immutable object version, whatever has happened since the head was read. */
  function DeleteObject(c: Cell, j: Id): Cell {
    if j in c.jobs && c.jobs[j].Superseded? then
      c.(objects := c.objects - {c.jobs[j].key}, jobs := c.jobs[j := ObjectDeleted(c.jobs[j].key)])
    else c
  }

  function MarkDeleted(c: Cell, j: Id): Cell {
    if j in c.jobs && c.jobs[j].ObjectDeleted? && HasRow(c, c.jobs[j].key, Ready) then
      var key := c.jobs[j].key;
      c.(rows := c.rows[key := c.rows[key].(workflow := Deleted, retentionDue := None)], jobs := c.jobs - {j})
    else c
  }

  // ---------------------------------------------------------------- backfill

  /** The backfill's reread of a head. */
  function BeginBackfill(c: Cell, o: Id): Cell {
    if o !in c.ops && c.head.Some? then c.(ops := c.ops[o := Backfill(c.head.value.control)]) else c
  }

  /** Reads the control row the head named, or throws. */
  function ReadBackfillControl(c: Cell, o: Id): Cell {
    if o in c.ops && c.ops[o].Backfill? then
      var key := ControlKey(c.ops[o].control);
      if key in c.rows && c.rows[key].control.Some?
      then c.(ops := c.ops[o := Backfilling(c.rows[key].control.value, Unread)])
      else c.(ops := c.ops[o := Stopped(None)])
    else c
  }

  predicate BackfillAllowed(c: Cell, record: Control) {
    IsReady(c) && c.head.value.control == record.version
  }

  function CommitBackfill(c: Cell, o: Id, sequence: nat): Cell
    requires c.head.Some?
  {
    c.(head := Some(c.head.value.(syncSequence := Some(sequence))), ops := c.ops[o := Stopped(None)])
  }
}

/** What every step keeps about one secret, and why. */
module RevisionInvariants {
  import opened Domain
  import opened Revisions

  // ---------------------------------------------------------------- the invariant

  /** Every id in the table or in a client was drawn before `n`. */
  ghost predicate FreshIds(c: Cell, n: Id) {
    (forall key :: key in c.rows ==> key.version < n && c.rows[key].operation < n)
    && (forall o :: o in c.ops ==> o < n)
  }

  ghost predicate ControlRowOk(c: Cell, key: Key) requires key in c.rows {
    && c.rows[key].control.Some?
    && c.rows[key].control.value.version == key.version
    && ControlShape(c, c.rows[key].control.value)
  }

  /** Identity never changes, and ACTIVE implies a payload. */
  ghost predicate ControlShape(c: Cell, control: Control) {
    && control.environment == c.environment && control.secretId == c.secretId
    && control.state != Revoked
    && (control.state == Active ==> control.payload.Some?)
  }

  ghost predicate RowsOk(c: Cell) {
    (forall key :: key in c.rows && key.ControlKey? ==> ControlRowOk(c, key))
    && (forall key :: key in c.rows && Settled(c.rows[key]) ==> c.rows[key].written == Some(key))
  }

  ghost predicate SettledKey(c: Cell, key: Key) {
    key in c.rows && Settled(c.rows[key])
  }

  /** A base is a committed revision, with the head attributes that its commit stored. */
  ghost predicate BaseOk(c: Cell, base: Base) {
    && SettledKey(c, ControlKey(base.head.control))
    && c.rows[ControlKey(base.head.control)].control == Some(base.control)
    && base.head.payload == base.control.payload
    && (base.head.payload.Some? ==>
          base.head.payloadObject == Some(PayloadKey(base.head.payload.value))
          && SettledKey(c, PayloadKey(base.head.payload.value)))
    && (base.head.payload.None? ==> base.head.payloadObject.None?)
  }

  /** How a mutation's revision relates to the revision it was computed from. */
  ghost predicate MutationShape(c: Cell, m: Mutation) {
    && ControlShape(c, m.control)
    && (m.newPayload ==> m.control.payload.Some?)
    && (m.archive ==> m.control.state == Archived && m.control.acl == map[])
    && (m.base.Some? ==> BaseOk(c, m.base.value)
                         && (!m.newPayload ==> m.control.payload == m.base.value.control.payload))
    && (m.base.None? ==> !m.newPayload && m.control.payload.None? && !m.archive)
  }

  /** The operation owns its rows, and they settle together exactly when it commits. */
  ghost predicate OwnRows(c: Cell, o: Id, m: Mutation, committed: bool) {
    && ControlKey(m.control.version) in c.rows
    && c.rows[ControlKey(m.control.version)].operation == o
    && c.rows[ControlKey(m.control.version)].control == Some(m.control)
    && Settled(c.rows[ControlKey(m.control.version)]) == committed
    && (m.newPayload && m.control.payload.Some? ==>
          PayloadKey(m.control.payload.value) in c.rows
          && c.rows[PayloadKey(m.control.payload.value)].operation == o
          && Settled(c.rows[PayloadKey(m.control.payload.value)]) == committed)
  }

  ghost predicate ObjectsStored(c: Cell, m: Mutation) {
    && ControlKey(m.control.version) in c.objects
    && c.objects[ControlKey(m.control.version)] == ControlDocument(m.control)
    && (m.newPayload && m.control.payload.Some? ==> PayloadKey(m.control.payload.value) in c.objects)
  }

  ghost predicate OpOk(c: Cell, o: Id, op: Op) {
    match op
    case Resolved(request) =>
      (request.UpdateByName? || request.ArchiveRequest? || request.CreateRequest?) ==>
        request.environment == c.environment && request.secretId == c.secretId
    case Reading(request, base, prior, read, lookup) =>
      && BaseOk(c, base) && base.head.ready
      && !request.CreateRequest? && request.expected == base.head.control
      && request.environment == c.environment && request.secretId == c.secretId
    case Leased(m) => MutationShape(c, m) && OwnRows(c, o, m, false)
    case Stored(m, _) => MutationShape(c, m) && OwnRows(c, o, m, false) && ObjectsStored(c, m)
    case Committed(m) => MutationShape(c, m) && OwnRows(c, o, m, true)
    case Stopped(last) => last.Some? ==> MutationShape(c, last.value) && OwnRows(c, o, last.value, false)
    case Backfilling(record, _) =>
      ControlKey(record.version) in c.rows && c.rows[ControlKey(record.version)].control == Some(record)
    case _ => true
  }

  ghost predicate OpsOk(c: Cell) {
    forall o :: o in c.ops ==> OpOk(c, o, c.ops[o])
  }

  /** Committed revisions of the secret form one chain, each computed from its predecessor. */
  ghost predicate ChainOk(log: seq<Commit>) {
    (|log| > 0 ==> log[0].base.None?)
    && (forall i :: 0 < i < |log| ==> log[i].base == Some(log[i - 1].control))
  }

  ghost predicate LogOk(c: Cell) {
    && ChainOk(c.log)
    && (forall i :: 0 <= i < |c.log| ==>
          SettledKey(c, ControlKey(c.log[i].control.version))
          && c.rows[ControlKey(c.log[i].control.version)].control == Some(c.log[i].control))
    && (forall i, j :: 0 <= i < j < |c.log| ==> c.log[i].control.version != c.log[j].control.version)
    && (IsReady(c) <==> |c.log| > 0)
    && (IsReady(c) ==> c.log[|c.log| - 1].control.version == c.head.value.control)
  }

  /** The revision that HEAD names. */
  function CurrentControl(c: Cell): Control
    requires |c.log| > 0
  {
    c.log[|c.log| - 1].control
  }

  /** A READY head agrees with its current revision, and what it references exists. */
  ghost predicate ReadyHeadOk(c: Cell, h: Head) {
    && HasRow(c, ControlKey(h.control), Ready)
    && h.controlObject == Some(ControlKey(h.control))
    && ControlKey(h.control) in c.objects
    && c.rows[ControlKey(h.control)].control.Some?
    && c.objects[ControlKey(h.control)] == ControlDocument(c.rows[ControlKey(h.control)].control.value)
    && h.payload == c.rows[ControlKey(h.control)].control.value.payload
    && h.state == c.rows[ControlKey(h.control)].control.value.state
    && h.metadata == c.rows[ControlKey(h.control)].control.value.metadata
    && (h.payload.None? ==> h.payloadObject.None?)
    && (h.payload.Some? ==>
          && HasRow(c, PayloadKey(h.payload.value), Ready)
          && h.payloadObject == Some(PayloadKey(h.payload.value))
          && PayloadKey(h.payload.value) in c.objects)
  }

  ghost predicate HeadOk(c: Cell) {
    c.head.Some? ==>
      var h := c.head.value;
      if h.ready then ReadyHeadOk(c, h)
      else h.controlObject.None? && h.payload.None? && h.syncSequence.None? && h.state != Active
           && ControlKey(h.control) in c.rows && !Settled(c.rows[ControlKey(h.control)])
  }

  /**
   * A lease holder has not committed, and the head carries the revision its mutation was computed from, or
   * is the unfinished head of its own create.
   */
  ghost predicate LeaseOk(c: Cell) {
    c.head.Some? && c.head.value.lease.Some? ==>
      var o := c.head.value.lease.value.owner;
      && o in c.ops && (InFlight(c.ops[o]) || c.ops[o].Stopped?) && MutationPrepared(c.ops[o]).Some?
      && var m := MutationPrepared(c.ops[o]).value;
         if m.base.Some? then c.head.value.ready && m.base.value.head.control == c.head.value.control
         else !c.head.value.ready && c.head.value.control == m.control.version
  }

  ghost predicate JobsOk(c: Cell) {
    forall j :: j in c.jobs ==>
      && SettledKey(c, c.jobs[j].key)
      && (!c.jobs[j].Listed? ==> !IsCurrent(c.jobs[j].key, c.head))
  }

  ghost predicate CellInv(c: Cell, n: Id) {
    FreshIds(c, n) && RowsOk(c) && OpsOk(c) && LogOk(c) && HeadOk(c) && LeaseOk(c) && JobsOk(c)
  }

  // ---------------------------------------------------------------- framing

  /** Rows may be added, and may change only in ways that keep owner, revision and settlement. */
  ghost predicate RowsExtend(c: Cell, d: Cell) {
    && d.environment == c.environment && d.secretId == c.secretId
    && (forall key :: key in c.rows ==>
          && key in d.rows
          && d.rows[key].operation == c.rows[key].operation
          && d.rows[key].control == c.rows[key].control
          && Settled(d.rows[key]) == Settled(c.rows[key]))
  }

  ghost predicate ObjectsExtend(c: Cell, d: Cell) {
    forall key :: key in c.objects && !(key in c.rows && Settled(c.rows[key])) ==>
      key in d.objects && d.objects[key] == c.objects[key]
  }

  lemma OpFramed(c: Cell, d: Cell, o: Id, op: Op)
    requires RowsExtend(c, d) && ObjectsExtend(c, d) && OpOk(c, o, op)
    ensures OpOk(d, o, op)
  {
  }

  lemma OpsFramed(c: Cell, d: Cell)
    requires RowsExtend(c, d) && ObjectsExtend(c, d) && OpsOk(c) && d.ops == c.ops
    ensures OpsOk(d)
  {
    forall x | x in d.ops ensures OpOk(d, x, d.ops[x]) { OpFramed(c, d, x, c.ops[x]); }
  }

  ghost predicate SameRevisionHead(c: Cell, d: Cell) {
    && c.head.Some? == d.head.Some?
    && (c.head.Some? ==> d.head.value.(lease := None, syncSequence := None)
                         == c.head.value.(lease := None, syncSequence := None))
  }

  lemma LogFramed(c: Cell, d: Cell)
    requires RowsExtend(c, d) && LogOk(c) && d.log == c.log && SameRevisionHead(c, d)
    ensures LogOk(d)
  {
    forall i | 0 <= i < |d.log|
      ensures SettledKey(d, ControlKey(d.log[i].control.version))
      ensures d.rows[ControlKey(d.log[i].control.version)].control == Some(d.log[i].control)
    {
      assert SettledKey(c, ControlKey(c.log[i].control.version));
    }
    if IsReady(c) { assert d.head.value.(lease := None, syncSequence := None).control == c.head.value.control; }
    assert IsReady(d) <==> IsReady(c);
  }

  lemma JobsFramed(c: Cell, d: Cell)
    requires RowsExtend(c, d) && JobsOk(c) && d.jobs.Keys <= c.jobs.Keys && SameRevisionHead(c, d)
    requires forall j :: j in d.jobs ==> d.jobs[j] == c.jobs[j]
    ensures JobsOk(d)
  {
    forall j | j in d.jobs
      ensures SettledKey(d, d.jobs[j].key) && (!d.jobs[j].Listed? ==> !IsCurrent(d.jobs[j].key, d.head))
    {
      assert SettledKey(c, c.jobs[j].key);
    }
  }

  /** A client keeps its mutation until it commits or stops, and never moves again after stopping. */
  predicate KeepsMutation(c: Cell, o: Id, op: Op) {
    if o in c.ops && InFlight(c.ops[o]) then (op.Stopped? && op.last == Some(c.ops[o].mutation)) || (InFlight(op) && op.mutation == c.ops[o].mutation)
    else !InFlight(op) && (o in c.ops && c.ops[o].Stopped? ==> op == c.ops[o])
  }

  /** Steps that only move one client's local variables. */
  lemma LocalStep(c: Cell, o: Id, op: Op, n: Id)
    requires CellInv(c, n) && o < n
    requires OpOk(c, o, op)
    requires KeepsMutation(c, o, op)
    ensures CellInv(c.(ops := c.ops[o := op]), n)
  {
    hide RowsOk, ReadyHeadOk, ChainOk, FreshIds, LogOk, HeadOk, JobsOk, LeaseOk, KeepsMutation;
    var d := c.(ops := c.ops[o := op]);
    forall x | x in d.ops ensures OpOk(d, x, d.ops[x]) {
      if x != o { OpFramed(c, d, x, c.ops[x]); }
    }
    LocalFrame(c, d, o, n);
    LocalLog(c, d);
    LocalLease(c, o, op);
  }

  lemma LocalLog(c: Cell, d: Cell)
    requires LogOk(c) && JobsOk(c) && d == c.(ops := d.ops)
    ensures LogOk(d) && JobsOk(d)
  {
    hide ChainOk;
  }

  lemma LocalLease(c: Cell, o: Id, op: Op)
    requires LeaseOk(c) && KeepsMutation(c, o, op)
    ensures LeaseOk(c.(ops := c.ops[o := op]))
  {
  }

  lemma LocalFrame(c: Cell, d: Cell, o: Id, n: Id)
    requires FreshIds(c, n) && RowsOk(c) && HeadOk(c) && d == c.(ops := d.ops) && o < n && d.ops.Keys == c.ops.Keys + {o}
    ensures FreshIds(d, n) && RowsOk(d) && HeadOk(d)
  {
  }

  // ---------------------------------------------------------------- client reads

  lemma EmptyCellOk(environment: Name, secretId: Name, n: Id)
    ensures CellInv(Cell(environment, secretId, None, map[], map[], map[], map[], map[], []), n)
  {
  }

  lemma BeginKeeps(c: Cell, o: Id, request: Request, n: Id)
    requires CellInv(c, n) && o < n
    requires !request.UpdateByUid? ==> request.environment == c.environment && request.secretId == c.secretId
    ensures CellInv(Begin(c, o, request), n)
  {
    if o !in c.ops { LocalStep(c, o, Resolved(request), n); }
  }

  lemma ReadHeadKeeps(c: Cell, o: Id, n: Id)
    requires CellInv(c, n)
    ensures CellInv(ReadHead(c, o), n)
  {
    hide CellInv, OpsOk, HeadOk, RowsOk, LogOk, LeaseOk, JobsOk, FreshIds, OpOk;
    var d := ReadHead(c, o);
    if d != c {
      CellParts(c, o, n);
      ReadHeadOpOk(c, o);
      LocalStep(c, o, d.ops[o], n);
    }
  }

  lemma CellParts(c: Cell, o: Id, n: Id)
    requires CellInv(c, n)
    ensures OpsOk(c) && HeadOk(c) && RowsOk(c) && LogOk(c) && LeaseOk(c) && JobsOk(c) && FreshIds(c, n)
    ensures o in c.ops ==> OpOk(c, o, c.ops[o]) && o < n
  {
  }

  lemma ReadHeadOpOk(c: Cell, o: Id)
    requires OpsOk(c) && HeadOk(c) && RowsOk(c) && ReadHead(c, o) != c
    ensures OpOk(c, o, ReadHead(c, o).ops[o])
  {
    assert OpOk(c, o, c.ops[o]);
  }

  /** A client goes on reading for the same request, from the same base. */
  lemma ReadingMoves(c: Cell, o: Id, op: Op, n: Id)
    requires CellInv(c, n) && o in c.ops && c.ops[o].Reading? && op.Reading? && op.request == c.ops[o].request && op.base == c.ops[o].base
    ensures CellInv(c.(ops := c.ops[o := op]), n)
  {
    hide CellInv, OpsOk, HeadOk, RowsOk, LogOk, LeaseOk, JobsOk, FreshIds, BaseOk;
    CellParts(c, o, n);
    LocalStep(c, o, op, n);
  }

  lemma ReadAccessKeeps(c: Cell, o: Id, consumer: Id, found: Option<Id>, row: Option<AccessRow>, n: Id)
    requires CellInv(c, n)
    ensures CellInv(ResolveAccess(c, o, consumer, found), n)
    ensures CellInv(FetchAccess(c, o, row), n)
  {
    hide CellInv;
    if o in c.ops && c.ops[o].Reading? {
      var d, e := ResolveAccess(c, o, consumer, found), FetchAccess(c, o, row);
      if d != c { ReadingMoves(c, o, d.ops[o], n); }
      if e != c { ReadingMoves(c, o, e.ops[o], n); }
    }
  }

  lemma PublishReadsKeep(c: Cell, o: Id, state: Option<SyncState>, n: Id)
    requires CellInv(c, n)
    ensures CellInv(ReadCounter(c, o, state), n)
    ensures CellInv(ReadPrevious(c, o), n)
  {
    hide CellInv;
    var d, e := ReadCounter(c, o, state), ReadPrevious(c, o);
    if d != c { StageMoves(c, o, StageOf(d.ops[o]), n); }
    if e != c { StageMoves(c, o, StageOf(e.ops[o]), n); }
  }

  /** A publish attempt reads on. */
  lemma StageMoves(c: Cell, o: Id, stage: Stage, n: Id)
    requires CellInv(c, n) && o in c.ops && (c.ops[o].Stored? || c.ops[o].Backfilling?)
    ensures CellInv(c.(ops := c.ops[o := WithStage(c.ops[o], stage)]), n)
  {
    hide CellInv, OpsOk, HeadOk, RowsOk, LogOk, LeaseOk, JobsOk, FreshIds, MutationShape, OwnRows, ObjectsStored;
    CellParts(c, o, n);
    LocalStep(c, o, WithStage(c.ops[o], stage), n);
  }

  lemma BeginBackfillKeeps(c: Cell, o: Id, n: Id)
    requires CellInv(c, n) && o < n
    ensures CellInv(BeginBackfill(c, o), n)
  {
    var d := BeginBackfill(c, o);
    if d != c { LocalStep(c, o, d.ops[o], n); }
  }

  lemma ReadBackfillControlKeeps(c: Cell, o: Id, n: Id)
    requires CellInv(c, n)
    ensures CellInv(ReadBackfillControl(c, o), n)
  {
    hide CellInv, RowsOk;
    if o in c.ops && c.ops[o].Backfill? {
      OpBelow(c, o, n);
      BackfillReads(c, o);
      LocalStep(c, o, ReadBackfillControl(c, o).ops[o], n);
    }
  }

  lemma OpBelow(c: Cell, o: Id, n: Id)
    requires CellInv(c, n) && o in c.ops
    ensures o < n && OpOk(c, o, c.ops[o]) && RowsOk(c)
  {
  }

  lemma BackfillReads(c: Cell, o: Id)
    requires RowsOk(c) && o in c.ops && c.ops[o].Backfill?
    ensures OpOk(c, o, ReadBackfillControl(c, o).ops[o])
  {
  }

  // ---------------------------------------------------------------- prepare

  lemma PreparedMutationShape(c: Cell, o: Id, version: Id, payload: Id, expires: nat, n: Id)
    requires CellInv(c, n) && MutationOf(c, o, version, payload, expires).Some?
    ensures MutationShape(c, MutationOf(c, o, version, payload, expires).value)
  {
    assert OpOk(c, o, c.ops[o]);
  }

  lemma PrepareKeeps(c: Cell, o: Id, version: Id, payload: Id, nameFree: bool, now: nat, expires: nat, n: Id)
    requires CellInv(c, n) && version < n && payload < n
    ensures CellInv(Prepare(c, o, version, payload, nameFree, now, expires), n)
  {
    var mutation := MutationOf(c, o, version, payload, expires);
    if mutation.Some? {
      var m := mutation.value;
      PreparedMutationShape(c, o, version, payload, expires, n);
      if PrepareAllowed(c, m, nameFree, now) {
        PrepareSucceeds(c, o, m, nameFree, now, n);
      } else {
        LocalStep(c, o, Stopped(None), n);
      }
    }
  }

  lemma PrepareSucceeds(c: Cell, o: Id, m: Mutation, nameFree: bool, now: nat, n: Id)
    requires CellInv(c, n) && o in c.ops && (c.ops[o].Resolved? || c.ops[o].Reading?)
    requires MutationShape(c, m) && PrepareAllowed(c, m, nameFree, now)
    requires m.control.version < n && (m.newPayload ==> m.control.payload.Some? && m.control.payload.value < n)
    ensures CellInv(c.(head := Some(PrepareHead(c, o, m)), rows := WithRows(c, o, m), ops := c.ops[o := Leased(m)]), n)
  {
    var d := c.(head := Some(PrepareHead(c, o, m)), rows := WithRows(c, o, m), ops := c.ops[o := Leased(m)]);
    AddRowsKeeps(c, o, m, n);
    var e := c.(rows := WithRows(c, o, m), ops := c.ops[o := Leased(m)]);
    assert d == e.(head := d.head);
    PrepareHeadKeeps(c, e, o, m, n);
  }

  /** The prepared rows alone: only the lease and the head's own clauses are left to establish. */
  lemma AddRowsKeeps(c: Cell, o: Id, m: Mutation, n: Id)
    requires CellInv(c, n) && o in c.ops && (c.ops[o].Resolved? || c.ops[o].Reading?)
    requires MutationShape(c, m) && RowsAbsent(c, m)
    requires m.control.version < n && (m.newPayload ==> m.control.payload.Some? && m.control.payload.value < n)
    ensures CellInv(c.(rows := WithRows(c, o, m), ops := c.ops[o := Leased(m)]), n)
  {
    var e := c.(rows := WithRows(c, o, m), ops := c.ops[o := Leased(m)]);
    AddRowsKeepsOps(c, e, o, m);
    LogFramed(c, e);
    JobsFramed(c, e);
    AddRowsKeepsHead(c, e, o, m, n);
  }

  lemma AddRowsKeepsHead(c: Cell, e: Cell, o: Id, m: Mutation, n: Id)
    requires FreshIds(c, n) && RowsOk(c) && HeadOk(c) && LeaseOk(c) && o in c.ops && (c.ops[o].Resolved? || c.ops[o].Reading?)
    requires ControlShape(c, m.control) && RowsAbsent(c, m)
    requires m.control.version < n && (m.newPayload ==> m.control.payload.Some? && m.control.payload.value < n)
    requires e == c.(rows := WithRows(c, o, m), ops := c.ops[o := Leased(m)])
    ensures FreshIds(e, n) && RowsOk(e) && HeadOk(e) && LeaseOk(e)
  {
    hide ControlShape;
    AddRowsKeepsRows(c, e, o, m, n);
    AddRowsKeepsLease(c, e, o, m);
    hide FreshIds, RowsOk, LeaseOk;
  }

  lemma AddRowsKeepsRows(c: Cell, e: Cell, o: Id, m: Mutation, n: Id)
    requires FreshIds(c, n) && RowsOk(c) && o in c.ops && ControlShape(c, m.control)
    requires m.control.version < n && (m.newPayload ==> m.control.payload.Some? && m.control.payload.value < n)
    requires e == c.(rows := WithRows(c, o, m), ops := c.ops[o := Leased(m)])
    ensures FreshIds(e, n) && RowsOk(e)
  {
  }

  lemma AddRowsKeepsLease(c: Cell, e: Cell, o: Id, m: Mutation)
    requires LeaseOk(c) && o in c.ops && (c.ops[o].Resolved? || c.ops[o].Reading?)
    requires e == c.(rows := WithRows(c, o, m), ops := c.ops[o := Leased(m)])
    ensures LeaseOk(e)
  {
  }

  lemma AddRowsKeepsOps(c: Cell, e: Cell, o: Id, m: Mutation)
    requires OpsOk(c) && MutationShape(c, m) && RowsAbsent(c, m) && o in c.ops && (c.ops[o].Resolved? || c.ops[o].Reading?)
    requires e == c.(rows := WithRows(c, o, m), ops := c.ops[o := Leased(m)])
    ensures RowsExtend(c, e) && OpsOk(e)
  {
    assert ObjectsExtend(c, e);
    forall x | x in e.ops ensures OpOk(e, x, e.ops[x]) {
      if x != o { OpFramed(c, e, x, c.ops[x]); }
    }
  }

  /** What is said of rows and clients does not depend on the head. */
  lemma HeadFrame(e: Cell, d: Cell, n: Id)
    requires d == e.(head := d.head) && FreshIds(e, n) && RowsOk(e) && OpsOk(e)
    ensures FreshIds(d, n) && RowsOk(d) && OpsOk(d)
  {
    forall x | x in d.ops ensures OpOk(d, x, d.ops[x]) { OpFramed(e, d, x, e.ops[x]); }
  }

  lemma PrepareHeadKeeps(c: Cell, e: Cell, o: Id, m: Mutation, n: Id)
    requires CellInv(c, n) && CellInv(e, n) && MutationShape(c, m) && RowsAbsent(c, m)
    requires e == c.(rows := WithRows(c, o, m), ops := c.ops[o := Leased(m)])
    requires m.base.None? ==> c.head.None?
    requires m.base.Some? ==> c.head.Some? && c.head.value.control == m.base.value.head.control
    ensures CellInv(e.(head := Some(PrepareHead(c, o, m))), n)
  {
    var d := e.(head := Some(PrepareHead(c, o, m)));
    HeadFrame(e, d, n);
    if m.base.Some? {
      LeaseTaken(c, e, d, o, m);
      LogFramed(e, d);
      JobsFramed(e, d);
    } else {
      HeadCreated(c, e, d, o, m);
    }
  }

  /** A lease on an existing head leaves its revision alone. */
  lemma LeaseTaken(c: Cell, e: Cell, d: Cell, o: Id, m: Mutation)
    requires HeadOk(e) && m.base.Some? && BaseOk(c, m.base.value)
    requires c.head.Some? && c.head.value.control == m.base.value.head.control
    requires HeadOk(c)
    requires e == c.(rows := WithRows(c, o, m), ops := c.ops[o := Leased(m)])
    requires d == e.(head := Some(PrepareHead(c, o, m)))
    ensures HeadOk(d) && LeaseOk(d) && SameRevisionHead(e, d)
  {
    assert SettledKey(c, ControlKey(m.base.value.head.control));
  }

  /** A create writes a head that is not READY, over no committed revision and no retention job. */
  lemma HeadCreated(c: Cell, e: Cell, d: Cell, o: Id, m: Mutation)
    requires LogOk(e) && JobsOk(e) && MutationShape(c, m) && RowsAbsent(c, m)
    requires m.base.None? && c.head.None? && JobsOk(c)
    requires e == c.(rows := WithRows(c, o, m), ops := c.ops[o := Leased(m)])
    requires d == e.(head := Some(PrepareHead(c, o, m)))
    ensures LogOk(d) && HeadOk(d) && LeaseOk(d) && JobsOk(d)
  {
    forall j | j in c.jobs ensures SettledKey(c, c.jobs[j].key) {}
  }

  lemma StoreObjectsKeeps(c: Cell, o: Id, n: Id)
    requires CellInv(c, n)
    ensures CellInv(StoreObjects(c, o), n)
  {
    var d := StoreObjects(c, o);
    if d != c {
      StoreObjectsKeepsOps(c, o);
      StoreObjectsKeepsHead(c, o, n);
      hide OpsOk, OpOk;
      LogFramed(c, d);
      JobsFramed(c, d);
    }
  }

  /** Objects of unsettled rows are not those the head names. */
  lemma StoreObjectsKeepsHead(c: Cell, o: Id, n: Id)
    requires CellInv(c, n) && StoreObjects(c, o) != c
    ensures var d := StoreObjects(c, o);
            FreshIds(d, n) && RowsOk(d) && HeadOk(d) && LeaseOk(d)
  {
    assert OpOk(c, o, c.ops[o]);
    hide OpsOk, LogOk, JobsOk;
  }

  lemma StoreObjectsKeepsOps(c: Cell, o: Id)
    requires OpsOk(c) && StoreObjects(c, o) != c
    ensures OpsOk(StoreObjects(c, o))
  {
    var d := StoreObjects(c, o);
    assert OpOk(c, o, c.ops[o]);
    forall x | x in d.ops ensures OpOk(d, x, d.ops[x]) {
      assert OpOk(c, x, c.ops[x]);
    }
  }

  // ---------------------------------------------------------------- commit

  /** The lease conditions make the base of a committing mutation the current revision. */
  lemma LeaseMeansCurrent(c: Cell, o: Id, n: Id)
    requires CellInv(c, n) && o in c.ops && InFlight(c.ops[o])
    requires c.head.Some? && c.head.value.lease.Some? && c.head.value.lease.value.owner == o
    ensures var m := c.ops[o].mutation;
            && (m.base.Some? ==> |c.log| > 0 && c.head.value.ready
                                 && m.base.value.head.control == c.head.value.control
                                 && m.base.value.control == CurrentControl(c)
                                 && m.base.value.head.payload == c.head.value.payload
                                 && m.base.value.head.payloadObject == c.head.value.payloadObject)
            && (m.base.None? ==> c.log == [] && !c.head.value.ready)
  {
    assert OpOk(c, o, c.ops[o]);
  }

  /** A commit whose conditions hold keeps the secret's invariant. */
  lemma CommitKeeps(c: Cell, o: Id, resolves: bool, previous: Option<nat>, sequence: nat, due: nat, n: Id)
    requires CellInv(c, n) && o in c.ops && c.ops[o].Stored?
    requires CommitAllowed(c, o, c.ops[o].mutation, resolves, previous)
    ensures CellInv(CommitMutation(c, o, c.ops[o].mutation, sequence, due), n)
  {
    CommitKeepsOps(c, o, sequence, due, n);
    CommitKeepsLog(c, o, sequence, due, n);
    CommitKeepsHead(c, o, sequence, due, n);
    CommitKeepsJobs(c, o, sequence, due, n);
    CommitKeepsRows(c, o, sequence, due, n);
  }

  lemma CommitKeepsRows(c: Cell, o: Id, sequence: nat, due: nat, n: Id)
    requires CellInv(c, n) && o in c.ops && c.ops[o].Stored? && c.head.Some?
    ensures FreshIds(CommitMutation(c, o, c.ops[o].mutation, sequence, due), n)
    ensures RowsOk(CommitMutation(c, o, c.ops[o].mutation, sequence, due))
  {
  }

  lemma CommitKeepsOps(c: Cell, o: Id, sequence: nat, due: nat, n: Id)
    requires CellInv(c, n) && o in c.ops && c.ops[o].Stored? && c.head.Some?
    ensures OpsOk(CommitMutation(c, o, c.ops[o].mutation, sequence, due))
  {
    hide CellInv, OpOk, CommitHead, CommitRows;
    var m := c.ops[o].mutation;
    var d := CommitMutation(c, o, m, sequence, due);
    CellParts(c, o, n);
    forall x | x in d.ops ensures OpOk(d, x, d.ops[x]) {
      CellParts(c, x, n);
      if x != o { OtherOpSurvivesCommit(c, o, x, sequence, due); } else { OwnOpIsCommitted(c, o, sequence, due); }
    }
  }

  lemma OwnOpIsCommitted(c: Cell, o: Id, sequence: nat, due: nat)
    requires o in c.ops && c.ops[o].Stored? && c.head.Some? && OpOk(c, o, c.ops[o])
    ensures OpOk(CommitMutation(c, o, c.ops[o].mutation, sequence, due), o, Committed(c.ops[o].mutation))
  {
  }

  lemma OtherOpSurvivesCommit(c: Cell, o: Id, x: Id, sequence: nat, due: nat)
    requires o in c.ops && c.ops[o].Stored? && c.head.Some? && OpOk(c, o, c.ops[o])
    requires x in c.ops && x != o && OpOk(c, x, c.ops[x])
    ensures OpOk(CommitMutation(c, o, c.ops[o].mutation, sequence, due), x, c.ops[x])
  {
    hide CommitMutation, OpOk;
    var d := CommitMutation(c, o, c.ops[o].mutation, sequence, due);
    CommitRowsKeep(c, o, sequence, due);
    OpSurvivesSettling(c, d, o, x, c.ops[x]);
  }

  /** Settling one operation's rows leaves what the other clients know. */
  lemma OpSurvivesSettling(c: Cell, d: Cell, o: Id, x: Id, op: Op)
    requires d.environment == c.environment && d.secretId == c.secretId && d.rows.Keys == c.rows.Keys && d.objects == c.objects
    requires forall key :: key in c.rows ==>
               && d.rows[key].operation == c.rows[key].operation && d.rows[key].control == c.rows[key].control
               && (Settled(c.rows[key]) ==> Settled(d.rows[key]))
               && (c.rows[key].operation != o ==> Settled(d.rows[key]) == Settled(c.rows[key]))
    requires OpOk(c, x, op) && x != o
    ensures OpOk(d, x, op)
  {
    hide Settled;
  }

  /** Every row keeps its owner and revision; only the operation's own rows settle. */
  lemma CommitRowsKeep(c: Cell, o: Id, sequence: nat, due: nat)
    requires o in c.ops && c.ops[o].Stored? && c.head.Some? && OpOk(c, o, c.ops[o])
    ensures var d := CommitMutation(c, o, c.ops[o].mutation, sequence, due);
            && d.environment == c.environment && d.secretId == c.secretId && d.rows.Keys == c.rows.Keys && d.objects == c.objects
            && (forall key :: key in c.rows ==>
                  && d.rows[key].operation == c.rows[key].operation && d.rows[key].control == c.rows[key].control
                  && (Settled(c.rows[key]) ==> Settled(d.rows[key]))
                  && (c.rows[key].operation != o ==> Settled(d.rows[key]) == Settled(c.rows[key])))
  {
  }

  lemma CommitKeepsLog(c: Cell, o: Id, sequence: nat, due: nat, n: Id)
    requires CellInv(c, n) && o in c.ops && c.ops[o].Stored?
    requires c.head.Some? && c.head.value.lease.Some? && c.head.value.lease.value.owner == o
    ensures LogOk(CommitMutation(c, o, c.ops[o].mutation, sequence, due))
  {
    hide AccessProjectionChanged, AccessItems, CellInv, CommitRows;
    var m := c.ops[o].mutation;
    var d := CommitMutation(c, o, m, sequence, due);
    LeaseMeansCurrent(c, o, n);
    CommitLogFacts(c, o, n);
    CommitRowsKeepLog(c, m, due);
  }

  /** The committing revision is new to the log. */
  lemma CommitLogFacts(c: Cell, o: Id, n: Id)
    requires CellInv(c, n) && o in c.ops && c.ops[o].Stored?
    ensures LogOk(c) && OwnRows(c, o, c.ops[o].mutation, false)
    ensures forall i :: 0 <= i < |c.log| ==> c.log[i].control.version != c.ops[o].mutation.control.version
  {
    assert OpOk(c, o, c.ops[o]);
    forall i | 0 <= i < |c.log| ensures c.log[i].control.version != c.ops[o].mutation.control.version {
      assert SettledKey(c, ControlKey(c.log[i].control.version));
    }
  }

  lemma CommitRowsKeepLog(c: Cell, m: Mutation, due: nat)
    requires LogOk(c) && ControlKey(m.control.version) in c.rows && c.rows[ControlKey(m.control.version)].control == Some(m.control)
    ensures var rows := CommitRows(c.rows, m, due);
            && (forall i :: 0 <= i < |c.log| ==>
                  var key := ControlKey(c.log[i].control.version);
                  key in rows && Settled(rows[key]) && rows[key].control == Some(c.log[i].control))
            && ControlKey(m.control.version) in rows && Settled(rows[ControlKey(m.control.version)])
            && rows[ControlKey(m.control.version)].control == Some(m.control)
  {
    forall i | 0 <= i < |c.log| ensures SettledKey(c, ControlKey(c.log[i].control.version)) {}
  }

  lemma CommitKeepsHead(c: Cell, o: Id, sequence: nat, due: nat, n: Id)
    requires CellInv(c, n) && o in c.ops && c.ops[o].Stored?
    requires c.head.Some? && c.head.value.lease.Some? && c.head.value.lease.value.owner == o
    ensures HeadOk(CommitMutation(c, o, c.ops[o].mutation, sequence, due))
  {
    assert OpOk(c, o, c.ops[o]);
    LeaseMeansCurrent(c, o, n);
  }

  lemma CommitKeepsJobs(c: Cell, o: Id, sequence: nat, due: nat, n: Id)
    requires CellInv(c, n) && o in c.ops && c.ops[o].Stored?
    requires c.head.Some? && c.head.value.lease.Some? && c.head.value.lease.value.owner == o
    ensures JobsOk(CommitMutation(c, o, c.ops[o].mutation, sequence, due))
  {
    var m := c.ops[o].mutation;
    var d := CommitMutation(c, o, m, sequence, due);
    assert OpOk(c, o, c.ops[o]);
    LeaseMeansCurrent(c, o, n);
    forall j | j in d.jobs
      ensures SettledKey(d, d.jobs[j].key) && (!d.jobs[j].Listed? ==> !IsCurrent(d.jobs[j].key, d.head))
    {
      assert SettledKey(c, c.jobs[j].key);
    }
  }

  // ---------------------------------------------------------------- recovery, retention, backfill

  lemma MarkRetryableKeeps(c: Cell, key: Key, now: nat, n: Id)
    requires CellInv(c, n)
    ensures CellInv(MarkRetryable(c, key, now), n)
  {
    var d := MarkRetryable(c, key, now);
    if d != c {
      RowChangeExtends(c, d, key);
      OpsFramed(c, d);
      LogFramed(c, d);
      JobsFramed(c, d);
      MarkRetryableKeepsHead(c, key, now, n);
    }
  }

  /** Changing one row's workflow state without settling or unsettling it. */
  lemma RowChangeExtends(c: Cell, d: Cell, key: Key)
    requires key in c.rows && key in d.rows && d == c.(rows := c.rows[key := d.rows[key]], jobs := d.jobs)
    requires d.rows[key].operation == c.rows[key].operation && d.rows[key].control == c.rows[key].control
    requires Settled(d.rows[key]) == Settled(c.rows[key])
    ensures RowsExtend(c, d) && ObjectsExtend(c, d) && SameRevisionHead(c, d)
  {
  }

  lemma MarkRetryableKeepsHead(c: Cell, key: Key, now: nat, n: Id)
    requires CellInv(c, n)
    ensures var d := MarkRetryable(c, key, now);
            FreshIds(d, n) && RowsOk(d) && HeadOk(d) && LeaseOk(d)
  {
    hide CellInv, OpsOk, LogOk, JobsOk;
    CellParts(c, 0, n);
    MarkRetryableRow(c, key, now);
    hide MarkRetryable;
    MarkedKeepsReadyHead(c, MarkRetryable(c, key, now), key);
  }

  /** Only the state of one PREPARED row changes. */
  ghost predicate OneRowMarked(c: Cell, d: Cell, key: Key) {
    && d == c.(rows := d.rows) && d.rows.Keys == c.rows.Keys
    && (forall k :: k in c.rows && (k != key || c.rows[k].workflow != Prepared) ==> d.rows[k] == c.rows[k])
    && (key in c.rows && c.rows[key].workflow == Prepared ==> d.rows[key] == c.rows[key] || d.rows[key] == c.rows[key].(workflow := Retryable))
  }

  lemma MarkRetryableRow(c: Cell, key: Key, now: nat)
    ensures OneRowMarked(c, MarkRetryable(c, key, now), key)
  {
  }

  lemma MarkedKeepsReadyHead(c: Cell, d: Cell, key: Key)
    requires OneRowMarked(c, d, key) && HeadOk(c)
    ensures HeadOk(d)
  {
  }

  lemma AbortCreateKeeps(c: Cell, o: Id, resolves: bool, n: Id)
    requires CellInv(c, n)
    ensures CellInv(AbortCreate(c, o, resolves), n)
  {
    OpsFramed(c, AbortCreate(c, o, resolves));
  }

  lemma PartsOfCell(c: Cell, n: Id)
    ensures FreshIds(c, n) && RowsOk(c) && OpsOk(c) && LogOk(c) && HeadOk(c) && LeaseOk(c) && JobsOk(c) ==> CellInv(c, n)
  {
    hide FreshIds, RowsOk, OpsOk, LogOk, HeadOk, LeaseOk, JobsOk;
  }

  lemma ReleaseKeepsHead(c: Cell, o: Id, n: Id)
    requires HeadOk(c) && RowsOk(c) && FreshIds(c, n)
    ensures HeadOk(ReleaseLease(c, o)) && RowsOk(ReleaseLease(c, o)) && FreshIds(ReleaseLease(c, o), n)
  {
    hide HasRetryable;
  }

  lemma ReleaseLeaseKeeps(c: Cell, o: Id, n: Id)
    requires CellInv(c, n)
    ensures CellInv(ReleaseLease(c, o), n)
  {
    hide CellInv, OpsOk, HeadOk, RowsOk, LogOk, JobsOk, HasRetryable;
    var e := ReleaseLease(c, o);
    CellParts(c, o, n);
    ReleaseKeepsHead(c, o, n);
    PartsOfCell(e, n);
    OpsFramed(c, e);
    LogFramed(c, e);
    JobsFramed(c, e);
  }

  lemma ListRetentionKeeps(c: Cell, j: Id, key: Key, now: nat, n: Id)
    requires CellInv(c, n)
    ensures CellInv(ListRetention(c, j, key, now), n)
  {
    JobsOnly(c, ListRetention(c, j, key, now), n);
  }

  lemma CheckRetentionKeeps(c: Cell, j: Id, n: Id)
    requires CellInv(c, n)
    ensures CellInv(CheckRetention(c, j), n)
  {
    JobsOnly(c, CheckRetention(c, j), n);
  }

  lemma JobsOnly(c: Cell, d: Cell, n: Id)
    requires CellInv(c, n) && d == c.(jobs := d.jobs) && JobsOk(d)
    ensures CellInv(d, n)
  {
    OpsFramed(c, d);
    LogFramed(c, d);
  }

  /** Deleting the object of a superseded key cannot touch anything the head references. */
  /** The deleted object is not current. */
  lemma DeleteObjectKeepsHead(c: Cell, j: Id, n: Id)
    requires CellInv(c, n) && DeleteObject(c, j) != c
    ensures HeadOk(DeleteObject(c, j))
  {
    CellParts(c, 0, n);
    hide CellInv, OpsOk, OpOk, LogOk, LeaseOk, RowsOk;
    assert !IsCurrent(c.jobs[j].key, c.head);
  }

  lemma RowsStay(c: Cell, d: Cell, n: Id)
    requires FreshIds(c, n) && RowsOk(c) && LeaseOk(c) && d == c.(objects := d.objects, jobs := d.jobs)
    ensures FreshIds(d, n) && RowsOk(d) && LeaseOk(d)
  {
  }

  lemma DeleteObjectKeeps(c: Cell, j: Id, n: Id)
    requires CellInv(c, n)
    ensures CellInv(DeleteObject(c, j), n)
  {
    hide CellInv, OpsOk, HeadOk, RowsOk, LogOk, LeaseOk, FreshIds;
    var d := DeleteObject(c, j);
    if d != c {
      CellParts(c, 0, n);
      assert SettledKey(c, c.jobs[j].key);
      DeleteObjectKeepsHead(c, j, n);
      RowsStay(c, d, n);
      OpsFramed(c, d);
      LogFramed(c, d);
      PartsOfCell(d, n);
    }
  }

  lemma MarkDeletedKeeps(c: Cell, j: Id, n: Id)
    requires CellInv(c, n)
    ensures CellInv(MarkDeleted(c, j), n)
  {
    var d := MarkDeleted(c, j);
    if d != c {
      RowChangeExtends(c, d, c.jobs[j].key);
      OpsFramed(c, d);
      LogFramed(c, d);
      JobsFramed(c, d);
      MarkDeletedKeepsHead(c, j, n);
    }
  }

  lemma MarkDeletedKeepsHead(c: Cell, j: Id, n: Id)
    requires CellInv(c, n) && j in c.jobs && c.jobs[j].ObjectDeleted?
    ensures HeadOk(MarkDeleted(c, j))
  {
    assert SettledKey(c, c.jobs[j].key);
  }

  lemma CommitBackfillKeeps(c: Cell, o: Id, sequence: nat, n: Id)
    requires CellInv(c, n) && IsReady(c) && o in c.ops && c.ops[o].Backfilling?
    ensures CellInv(CommitBackfill(c, o, sequence), n)
  {
    var d := CommitBackfill(c, o, sequence);
    forall x | x in d.ops ensures OpOk(d, x, d.ops[x]) { OpFramed(c, d, x, c.ops[x]); }
  }
}
