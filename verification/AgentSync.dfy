/**
 * The agent synchronization endpoint and one agent that follows it. A request reads STATE, then checks
 * its token, then queries one page; any number of writes may happen between these three moments.
 */
module AgentSync {
  import opened Domain
  import opened Revisions
  import opened RevisionInvariants
  import opened ControlPlane
  import opened SyncIndex

  const CHECKPOINT_LIFETIME: nat := 7 * 24 * 60 * 60 * 1000
  const PAGE_LIFETIME: nat := 15 * 60 * 1000
  const PAGE_LIMIT: nat := 100

  datatype Permission = ReadPermission | WritePermission

  datatype SecretGrant = SecretGrant(secretId: Name, permissions: set<Permission>)

  /** What the grant digest covers; the digest itself is taken to be injective. */
  datatype Digest = Digest(grant: Id, capabilities: set<Permission>, secretGrants: map<Id, SecretGrant>)

  datatype AgentGrant = AgentGrant(consumer: Id, environment: Name, active: bool, digest: Digest)

  datatype Entry = Entry(
    secretUid: Id,
    secretId: Name,
    control: Id,
    state: SecretState,
    permissions: set<Permission>,
    payload: Option<Id>,
    metadata: Option<string>)

  datatype Kind = Checkpoint | Page

  datatype Position = Position(
    kind: Kind,
    epoch: Id,
    digest: Digest,
    after: nat,
    through: nat,
    snapshot: bool,
    checkpointExpires: nat,
    pageExpires: nat,
    last: Option<nat>)

  datatype Scope = Scope(environment: Name, consumer: Id)

  datatype Cursor = Cursor(scope: Scope, position: Position, expires: nat)

  /** A token parameter, and whether its stored item still exists. */
  datatype Query = Query(syncCursor: Option<Cursor>, cursor: Option<Cursor>, stored: bool)

  datatype Failure = Forbidden | BadRequest | NotReady | ResetRequired

  datatype Decision = Accepted(position: Position) | Refused(failure: Failure)

  datatype Response = Response(
    snapshot: bool,
    changes: seq<Entry>,
    nextCursor: Option<Cursor>,
    syncCursor: Option<Cursor>)

  // ---------------------------------------------------------------- projection

  predicate Selected(record: SyncRecord, digest: Digest) {
    record.secretUid in digest.secretGrants && digest.secretGrants[record.secretUid].secretId == record.secretId
  }

  function VisibleEntry(record: SyncRecord, consumer: Id, digest: Digest): Entry
    requires Selected(record, digest)
  {
    var permissions := digest.secretGrants[record.secretUid].permissions;
    var live := record.state == Active || record.state == PendingValue;
    var write := live && WritePermission in digest.capabilities && WritePermission in permissions;
    var read := live && ReadPermission in digest.capabilities && ReadPermission in permissions && consumer in record.readers;
    Entry(record.secretUid, record.secretId, record.control,
          if read || write then record.state else Revoked,
          (if read then {ReadPermission} else {}) + (if write then {WritePermission} else {}),
          if read || write then record.payload else None,
          if write then Some(record.metadata) else None)
  }

  // ---------------------------------------------------------------- the endpoint

  function TokenOf(query: Query): Option<Cursor> {
    if query.cursor.Some? then query.cursor else query.syncCursor
  }

  function Encode(scope: Scope, position: Position): Cursor {
    Cursor(scope, position, if position.kind == Page then position.pageExpires else position.checkpointExpires)
  }

  /** Everything `sync` decides before it queries; `clock` is read for the deadlines, `now` by `decode`. */
  function Decide(state: Option<SyncState>, query: Query, grant: AgentGrant, scope: Scope, clock: nat, now: nat): Decision {
    if !grant.active || grant.consumer != scope.consumer || grant.environment != scope.environment then Refused(Forbidden)
    else if query.syncCursor.Some? && query.cursor.Some? then Refused(BadRequest)
    else if state.None? || !state.value.ready then Refused(NotReady)
    else
      var token := TokenOf(query);
      if token.None? then
        Accepted(Position(Page, state.value.epoch, grant.digest, 0, state.value.sequence, true,
                          clock + CHECKPOINT_LIFETIME, clock + PAGE_LIFETIME, None))
      else if !query.stored then Refused(ResetRequired)
      else if token.value.scope != scope then Refused(BadRequest)
      else if token.value.expires <= now then Refused(ResetRequired)
      else
        var position := token.value.position;
        if position.after > position.through then Refused(BadRequest)
        else if position.epoch != state.value.epoch || position.digest != grant.digest
                || position.through > state.value.sequence then Refused(ResetRequired)
        else if query.cursor.Some? then
          if position.kind != Page then Refused(BadRequest) else Accepted(position)
        else if position.kind != Checkpoint then Refused(BadRequest)
        else
          Accepted(position.(checkpointExpires := clock + CHECKPOINT_LIFETIME, pageExpires := clock + PAGE_LIFETIME,
                             after := position.through, through := state.value.sequence, snapshot := false, last := None))
  }

  function Progress(position: Position): nat {
    if position.last.Some? then position.last.value else position.after
  }

  /**
   * One page of the index: the rows of the next interval in key order, at most `PAGE_LIMIT` of them, and
   * the key to continue from when the query stopped before the end of its range.
   */
  ghost predicate IsPage(w: World, environment: Name, position: Position, keys: seq<ChangeKey>, last: Option<nat>) {
    if position.after == position.through then keys == [] && last.None?
    else
      && |keys| <= PAGE_LIMIT
      && (forall i, j :: 0 <= i < j < |keys| ==> keys[i].sequence < keys[j].sequence)
      && (last.Some? ==> |keys| > 0 && last.value == keys[|keys| - 1].sequence)
      && var end := if last.Some? then last.value else position.through;
         && end <= position.through
         && (forall key :: key in keys <==>
              key in w.changes && key.environment == environment && Progress(position) < key.sequence <= end)
  }

  /** The `flatMap` over the page. */
  function Changes(w: World, keys: seq<ChangeKey>, consumer: Id, digest: Digest): seq<Entry>
    requires forall key :: key in keys ==> key in w.changes
  {
    if keys == [] then []
    else
      var record := w.changes[keys[0]].record;
      (if Selected(record, digest) then [VisibleEntry(record, consumer, digest)] else [])
      + Changes(w, keys[1..], consumer, digest)
  }

  function Respond(w: World, scope: Scope, query: Query, position: Position, keys: seq<ChangeKey>, last: Option<nat>): Response
    requires forall key :: key in keys ==> key in w.changes
  {
    var changes := Changes(w, keys, scope.consumer, position.digest);
    if last.Some? then
      Response(position.snapshot, changes, Some(Encode(scope, position.(kind := Page, last := last))), None)
    else
      Response(position.snapshot, changes, None,
               if query.syncCursor.Some? && position.after == position.through then query.syncCursor
               else Some(Encode(scope, position.(kind := Checkpoint, after := position.through, last := None))))
  }

  // ---------------------------------------------------------------- an agent

  /** A cycle under way; `seen` is the table as its STATE was read, kept for the specification only. */
  datatype Cycle = Cycle(
    position: Position,
    query: Query,
    entries: map<Id, Entry>,
    delivered: seq<Id>,
    next: Option<Cursor>,
    seen: World)

  datatype Pending = Asked(query: Query, grant: AgentGrant, state: Option<SyncState>, asked: nat, before: World) | Querying(asked: nat)

  /** What a completed cycle returns: its whole range, its entries and the checkpoint it started from. */
  datatype Delta = Delta(position: Position, entries: map<Id, Entry>, delivered: seq<Id>, base: Option<Cursor>, seen: World)

  /** `frontier` is the table as the checkpoint's STATE was read, kept for the specification only. */
  datatype Agent = Agent(
    scope: Scope,
    checkpoint: Option<Cursor>,
    view: map<Id, Entry>,
    frontier: World,
    completed: Option<Delta>,
    cycle: Option<Cycle>,
    pending: Option<Pending>)

  datatype System = System(world: World, agent: Agent)

  datatype Source = Fresh | FromCheckpoint | NextPage

  datatype Event =
    | Move(step: Step)
    | Ask(source: Source, grant: AgentGrant, stored: bool)
    | Check(clock: nat)
    | Answer(keys: seq<ChangeKey>, last: Option<nat>)
    | Drop

  function Absorb(entries: map<Id, Entry>, changes: seq<Entry>): map<Id, Entry>
    decreases |changes|
  {
    if changes == [] then entries else Absorb(entries[changes[0].secretUid := changes[0]], changes[1..])
  }

  function Uids(changes: seq<Entry>): seq<Id> {
    if changes == [] then [] else [changes[0].secretUid] + Uids(changes[1..])
  }

  /** Requests carry the checkpoint or the last page's continuation; the agent may start over at any time. */
  function AskStep(s: System, source: Source, grant: AgentGrant, stored: bool): System {
    var a := s.agent;
    var state := StateOf(s.world, a.scope.environment);
    match source
    case Fresh =>
      s.(agent := a.(cycle := None, pending := Some(Asked(Query(None, None, stored), grant, state, s.world.now, s.world))))
    case FromCheckpoint =>
      if a.checkpoint.None? then s
      else s.(agent := a.(cycle := None, pending := Some(Asked(Query(a.checkpoint, None, stored), grant, state, s.world.now, s.world))))
    case NextPage =>
      if a.cycle.None? || a.cycle.value.next.None? then s
      else s.(agent := a.(pending := Some(Asked(Query(None, a.cycle.value.next, stored), grant, state, s.world.now, s.world))))
  }

  /** The token check. A refused token is dropped; a 410 makes the agent forget its checkpoint as well. */
  function CheckStep(s: System, clock: nat, timeout: nat): System {
    var a, now := s.agent, s.world.now;
    if a.pending.None? || !a.pending.value.Asked? || !(a.pending.value.asked <= clock <= now <= a.pending.value.asked + timeout) then s
    else
      var request := a.pending.value;
      match Decide(request.state, request.query, request.grant, a.scope, clock, now)
      case Refused(failure) =>
        s.(agent := a.(pending := None, cycle := None,
                       checkpoint := if failure == ResetRequired then None else a.checkpoint))
      case Accepted(position) =>
        if request.query.cursor.Some? then
          if a.cycle.None? then s
          else s.(agent := a.(pending := Some(Querying(request.asked)), cycle := Some(a.cycle.value.(position := position, query := request.query))))
        else
          s.(agent := a.(pending := Some(Querying(request.asked)), cycle := Some(Cycle(position, request.query, map[], [], None, request.before))))
  }

  /** The page query and the agent's handling of the response. */
  ghost function AnswerStep(s: System, keys: seq<ChangeKey>, last: Option<nat>, timeout: nat): System {
    var a, w := s.agent, s.world;
    if a.pending.None? || !a.pending.value.Querying? || a.cycle.None? || w.now > a.pending.value.asked + timeout
       || !IsPage(w, a.scope.environment, a.cycle.value.position, keys, last) then s
    else
      var cycle := a.cycle.value;
      var response := Respond(w, a.scope, cycle.query, cycle.position, keys, last);
      var entries := Absorb(cycle.entries, response.changes);
      if response.nextCursor.Some? then
        s.(agent := a.(pending := None,
                       cycle := Some(Cycle(response.nextCursor.value.position, cycle.query, entries,
                                           cycle.delivered + Uids(response.changes), response.nextCursor, cycle.seen))))
      else
        s.(agent := Agent(a.scope, response.syncCursor,
                          if response.snapshot then entries else a.view + entries,
                          if cycle.query.syncCursor.Some? && cycle.position.after == cycle.position.through then a.frontier
                          else cycle.seen,
                          Some(Delta(cycle.position.(last := Some(cycle.position.through)), entries,
                                     cycle.delivered + Uids(response.changes), a.checkpoint, cycle.seen)),
                          None, None))
  }

  ghost function Next(s: System, event: Event, timeout: nat): System {
    match event
    case Move(step) => s.(world := Apply(s.world, step))
    case Ask(source, grant, stored) => AskStep(s, source, grant, stored)
    case Check(clock) => CheckStep(s, clock, timeout)
    case Answer(keys, last) => AnswerStep(s, keys, last, timeout)
    case Drop => s.(agent := s.agent.(pending := None))
  }

  ghost function Behave(s: System, events: seq<Event>, timeout: nat): System
    decreases |events|
  {
    if events == [] then s else Behave(Next(s, events[0], timeout), events[1..], timeout)
  }

  function EventLag(event: Event): nat {
    if event.Move? then StepLag(event.step) else 0
  }

  /** Commit delay and clock error of every publication stay within the bound. */
  ghost predicate Timely(events: seq<Event>, lag: nat) {
    forall i :: 0 <= i < |events| ==> EventLag(events[i]) <= lag
  }
}
