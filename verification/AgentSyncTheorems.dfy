/** Convergence of an agent's view with the current state, over every interleaving of writes and requests. */
module AgentSyncTheorems {
  import opened Domain
  import opened Revisions
  import opened RevisionInvariants
  import opened ControlPlane
  import opened ControlPlaneInvariants
  import opened IndexInvariants
  import opened NameInvariants
  import opened ControlPlaneTheorems
  import opened SyncIndex
  import opened AgentSync

  // ---------------------------------------------------------------- what an agent should show

  predicate Published(w: World, uid: Id, environment: Name, digest: Digest) {
    && uid in w.cells && w.cells[uid].environment == environment
    && SequenceOf(w.cells[uid]).Some? && |w.cells[uid].log| > 0
    && Selected(SyncRecordOf(uid, CurrentControl(w.cells[uid])), digest)
  }

  /** The entry for the secret's current revision. */
  function CurrentEntry(w: World, uid: Id, scope: Scope, digest: Digest): Entry
    requires Published(w, uid, scope.environment, digest)
  {
    VisibleEntry(SyncRecordOf(uid, CurrentControl(w.cells[uid])), scope.consumer, digest)
  }

  function Sequence(w: World, uid: Id): nat
    requires uid in w.cells && SequenceOf(w.cells[uid]).Some?
  {
    SequenceOf(w.cells[uid]).value
  }

  /** What the agent would act on: a revoked entry counts as none. */
  function Shown(view: map<Id, Entry>, uid: Id): Option<Entry> {
    if uid in view && view[uid].state != Revoked then Some(view[uid]) else None
  }

  function Live(entry: Entry): Option<Entry> {
    if entry.state != Revoked then Some(entry) else None
  }

  /** The secret is archived and its row has expired: nothing is left to deliver. */
  predicate Gone(w: World, uid: Id, environment: Name)
    requires uid in w.cells && SequenceOf(w.cells[uid]).Some? && |w.cells[uid].log| > 0
  {
    CurrentControl(w.cells[uid]).state == Archived && ChangeKey(environment, Sequence(w, uid), uid) !in w.changes
  }

  /** The view holds the current entry, revoked or not; only a secret that is gone may be missing. */
  predicate Agrees(w: World, scope: Scope, digest: Digest, view: map<Id, Entry>, uid: Id)
    requires Published(w, uid, scope.environment, digest)
  {
    if uid in view then view[uid] == CurrentEntry(w, uid, scope, digest) else Gone(w, uid, scope.environment)
  }

  /** The view agrees with the current revision of every secret published at or below the frontier. */
  ghost predicate Converged(w: World, scope: Scope, digest: Digest, view: map<Id, Entry>, frontier: nat) {
    forall uid :: Published(w, uid, scope.environment, digest) && Sequence(w, uid) <= frontier ==> Agrees(w, scope, digest, view, uid)
  }

  // ---------------------------------------------------------------- the invariant

  /** The moment at which a range's upper end was read. */
  ghost predicate Frontier(w: World, seen: World, environment: Name, epoch: Id, through: nat, lag: nat) {
    && environment in seen.sync && seen.sync[environment].epoch == epoch
    && through == CounterOf(seen, environment)
    && Evolves(seen, w, environment, lag)
  }

  ghost predicate CheckpointOk(w: World, a: Agent, timeout: nat, lag: nat) {
    a.checkpoint.Some? ==>
      var c := a.checkpoint.value;
      && c == Encode(a.scope, c.position) && c.position.kind == Checkpoint
      && c.position.after == c.position.through
      && Frontier(w, a.frontier, a.scope.environment, c.position.epoch, c.position.through, lag)
      && c.position.checkpointExpires <= a.frontier.now + timeout + CHECKPOINT_LIFETIME
      && Converged(w, a.scope, c.position.digest, a.view, c.position.through)
  }

  /** Every selected secret of the range read so far is in the cycle with its current entry. */
  ghost predicate Covered(w: World, scope: Scope, position: Position, entries: map<Id, Entry>) {
    forall uid :: Published(w, uid, scope.environment, position.digest)
                  && position.after < Sequence(w, uid) <= Progress(position) ==>
      if uid in entries then entries[uid] == CurrentEntry(w, uid, scope, position.digest)
      else position.snapshot && Gone(w, uid, scope.environment)
  }

  /** A delivered secret has not moved to the rest of the range. */
  ghost predicate NotAhead(w: World, environment: Name, position: Position, delivered: seq<Id>) {
    forall uid :: uid in delivered ==>
      && uid in w.cells && SequenceOf(w.cells[uid]).Some? && w.cells[uid].environment == environment
      && (position.after < Sequence(w, uid) <= Progress(position) || Sequence(w, uid) > position.through)
  }

  ghost predicate Distinct(delivered: seq<Id>) {
    forall i, j :: 0 <= i < j < |delivered| ==> delivered[i] != delivered[j]
  }

  ghost predicate PositionOk(w: World, a: Agent, position: Position, seen: World, timeout: nat, lag: nat) {
    && Frontier(w, seen, a.scope.environment, position.epoch, position.through, lag)
    && position.after <= Progress(position) <= position.through
    && position.checkpointExpires <= seen.now + timeout + CHECKPOINT_LIFETIME
    && (position.snapshot ==> position.after == 0)
    && (!position.snapshot ==>
          && a.checkpoint.Some? && a.checkpoint.value.position.digest == position.digest
          && a.checkpoint.value.position.through == position.after
          && position.pageExpires <= a.frontier.now + timeout + CHECKPOINT_LIFETIME + PAGE_LIFETIME)
  }

  ghost predicate CycleOk(w: World, a: Agent, timeout: nat, lag: nat) {
    a.cycle.Some? ==>
      var cycle := a.cycle.value;
      && PositionOk(w, a, cycle.position, cycle.seen, timeout, lag)
      && Covered(w, a.scope, cycle.position, cycle.entries)
      && NotAhead(w, a.scope.environment, cycle.position, cycle.delivered)
      && Distinct(cycle.delivered)
      && (forall uid :: uid in cycle.entries <==> uid in cycle.delivered)
      && (cycle.next.Some? ==> cycle.next.value == Encode(a.scope, cycle.position) && cycle.position.kind == Page)
      && (cycle.query.syncCursor.Some? ==> cycle.query.syncCursor == a.checkpoint && !cycle.position.snapshot)
  }

  /** A request under way carries one of the agent's own tokens, and was asked before the token expired. */
  ghost predicate PendingOk(w: World, a: Agent, timeout: nat, lag: nat) {
    a.pending.Some? ==>
      match a.pending.value
      case Asked(query, grant, state, asked, before) =>
        && asked == before.now && state == StateOf(before, a.scope.environment)
        && Evolves(before, w, a.scope.environment, lag)
        && (query.syncCursor.Some? ==> query.cursor.None? && query.syncCursor == a.checkpoint)
        && (query.cursor.Some? ==> a.cycle.Some? && query.cursor == a.cycle.value.next)
        && (TokenOf(query).Some? ==> TokenOf(query).value.position.through <= CounterOf(before, a.scope.environment))
      case Querying(asked) =>
        a.cycle.Some? && !a.cycle.value.position.snapshot ==>
          asked <= a.frontier.now + timeout + CHECKPOINT_LIFETIME + PAGE_LIFETIME
  }

  /** The last completed cycle covers its range, from the checkpoint it started with to the one it returned. */
  ghost predicate DeltaOk(w: World, a: Agent, lag: nat) {
    a.completed.Some? ==>
      var delta := a.completed.value;
      && Frontier(w, delta.seen, a.scope.environment, delta.position.epoch, delta.position.through, lag)
      && Progress(delta.position) == delta.position.through
      && Covered(w, a.scope, delta.position, delta.entries)
      && NotAhead(w, a.scope.environment, delta.position, delta.delivered)
      && (forall uid :: uid in delta.entries <==> uid in delta.delivered)
      && (if delta.position.snapshot then delta.position.after == 0
          else delta.base.Some? && delta.base.value.position.through == delta.position.after
               && delta.base.value.position.digest == delta.position.digest)
      && (a.checkpoint.Some? ==> a.checkpoint.value.position.through == delta.position.through
                                 && a.checkpoint.value.position.digest == delta.position.digest)
  }

  ghost predicate SyncInv(s: System, timeout: nat, lag: nat) {
    && Sound(s.world)
    && CheckpointOk(s.world, s.agent, timeout, lag)
    && CycleOk(s.world, s.agent, timeout, lag)
    && PendingOk(s.world, s.agent, timeout, lag)
    && DeltaOk(s.world, s.agent, lag)
  }

  // ---------------------------------------------------------------- writes between the requests

  lemma FrontierMoves(w: World, v: World, seen: World, environment: Name, epoch: Id, through: nat, lag: nat)
    requires Frontier(w, seen, environment, epoch, through, lag) && Evolves(w, v, environment, lag)
    ensures Frontier(v, seen, environment, epoch, through, lag) && through <= CounterOf(w, environment)
  {
    CounterGrows(seen, w, environment, lag);
    hide Evolves;
    EvolvesTransitive(seen, w, v, environment, lag);
  }

  lemma CounterGrows(w: World, v: World, environment: Name, lag: nat)
    requires Evolves(w, v, environment, lag)
    ensures CounterOf(w, environment) <= CounterOf(v, environment) && w.now <= v.now
  {
    hide RowsEvolve, SecretsEvolve;
  }

  /** A secret published at or below the earlier counter has not moved. */
  lemma PublishedBefore(w: World, v: World, scope: Scope, digest: Digest, lag: nat, uid: Id)
    requires Evolves(w, v, scope.environment, lag)
    requires Published(v, uid, scope.environment, digest) && Sequence(v, uid) <= CounterOf(w, scope.environment)
    ensures Published(w, uid, scope.environment, digest) && Sequence(w, uid) == Sequence(v, uid)
    ensures CurrentControl(w.cells[uid]) == CurrentControl(v.cells[uid])
    ensures Gone(w, uid, scope.environment) ==> Gone(v, uid, scope.environment)
  {
    hide RowsPersist, NewRowsLast, CounterEvolves;
    assert SecretEvolves(w, v, scope.environment, lag, uid);
  }

  lemma ConvergedMoves(w: World, v: World, scope: Scope, digest: Digest, view: map<Id, Entry>, frontier: nat, lag: nat)
    requires Converged(w, scope, digest, view, frontier) && Evolves(w, v, scope.environment, lag)
    requires frontier <= CounterOf(w, scope.environment)
    ensures Converged(v, scope, digest, view, frontier)
  {
    hide Evolves, Selected, VisibleEntry;
    forall uid | Published(v, uid, scope.environment, digest) && Sequence(v, uid) <= frontier
      ensures Agrees(v, scope, digest, view, uid)
    {
      PublishedBefore(w, v, scope, digest, lag, uid);
    }
  }

  lemma CoveredMoves(w: World, v: World, scope: Scope, position: Position, entries: map<Id, Entry>, lag: nat)
    requires Covered(w, scope, position, entries) && Evolves(w, v, scope.environment, lag)
    requires Progress(position) <= CounterOf(w, scope.environment)
    ensures Covered(v, scope, position, entries)
  {
    hide Evolves, Selected, VisibleEntry;
    forall uid | Published(v, uid, scope.environment, position.digest)
                 && position.after < Sequence(v, uid) <= Progress(position)
      ensures if uid in entries then entries[uid] == CurrentEntry(v, uid, scope, position.digest)
              else position.snapshot && Gone(v, uid, scope.environment)
    {
      PublishedBefore(w, v, scope, position.digest, lag, uid);
    }
  }

  lemma NotAheadMoves(w: World, v: World, scope: Scope, position: Position, delivered: seq<Id>, lag: nat)
    requires NotAhead(w, scope.environment, position, delivered) && Evolves(w, v, scope.environment, lag)
    requires position.through <= CounterOf(w, scope.environment)
    ensures NotAhead(v, scope.environment, position, delivered)
  {
    hide RowsEvolve;
    forall uid | uid in delivered
      ensures uid in v.cells && SequenceOf(v.cells[uid]).Some? && v.cells[uid].environment == scope.environment
      ensures position.after < Sequence(v, uid) <= Progress(position) || Sequence(v, uid) > position.through
    {
      assert SecretEvolves(w, v, scope.environment, lag, uid);
    }
  }

  lemma CheckpointMoves(w: World, v: World, a: Agent, timeout: nat, lag: nat)
    requires CheckpointOk(w, a, timeout, lag) && Evolves(w, v, a.scope.environment, lag)
    ensures CheckpointOk(v, a, timeout, lag)
  {
    hide Evolves, Frontier, Converged;
    if a.checkpoint.Some? {
      var position := a.checkpoint.value.position;
      FrontierMoves(w, v, a.frontier, a.scope.environment, position.epoch, position.through, lag);
      ConvergedMoves(w, v, a.scope, position.digest, a.view, position.through, lag);
    }
  }

  lemma CycleMoves(w: World, v: World, a: Agent, timeout: nat, lag: nat)
    requires CycleOk(w, a, timeout, lag) && Evolves(w, v, a.scope.environment, lag)
    ensures CycleOk(v, a, timeout, lag)
  {
    hide Evolves, Frontier, Covered, NotAhead;
    if a.cycle.Some? {
      var cycle := a.cycle.value;
      FrontierMoves(w, v, cycle.seen, a.scope.environment, cycle.position.epoch, cycle.position.through, lag);
      CoveredMoves(w, v, a.scope, cycle.position, cycle.entries, lag);
      NotAheadMoves(w, v, a.scope, cycle.position, cycle.delivered, lag);
    }
  }

  lemma PendingMoves(w: World, v: World, a: Agent, timeout: nat, lag: nat)
    requires PendingOk(w, a, timeout, lag) && Evolves(w, v, a.scope.environment, lag)
    ensures PendingOk(v, a, timeout, lag)
  {
    hide Evolves;
    if a.pending.Some? && a.pending.value.Asked? {
      EvolvesTransitive(a.pending.value.before, w, v, a.scope.environment, lag);
    }
  }

  lemma DeltaMoves(w: World, v: World, a: Agent, lag: nat)
    requires DeltaOk(w, a, lag) && Evolves(w, v, a.scope.environment, lag)
    ensures DeltaOk(v, a, lag)
  {
    hide Evolves, Frontier, Covered, NotAhead;
    if a.completed.Some? {
      var delta := a.completed.value;
      FrontierMoves(w, v, delta.seen, a.scope.environment, delta.position.epoch, delta.position.through, lag);
      CoveredMoves(w, v, a.scope, delta.position, delta.entries, lag);
      NotAheadMoves(w, v, a.scope, delta.position, delta.delivered, lag);
    }
  }

  lemma MoveKeeps(s: System, step: Step, timeout: nat, lag: nat)
    requires SyncInv(s, timeout, lag) && StepLag(step) <= lag
    ensures SyncInv(Next(s, Move(step), timeout), timeout, lag)
  {
    hide Sound, Evolves, Apply, CheckpointOk, CycleOk, PendingOk, DeltaOk;
    var v := Apply(s.world, step);
    StepIsSound(s.world, step);
    StepEvolves(s.world, step, s.agent.scope.environment, lag);
    CheckpointMoves(s.world, v, s.agent, timeout, lag);
    CycleMoves(s.world, v, s.agent, timeout, lag);
    PendingMoves(s.world, v, s.agent, timeout, lag);
    DeltaMoves(s.world, v, s.agent, lag);
  }

  // ---------------------------------------------------------------- asking and checking

  lemma AskKeeps(s: System, source: Source, grant: AgentGrant, stored: bool, timeout: nat, lag: nat)
    requires SyncInv(s, timeout, lag)
    ensures SyncInv(Next(s, Ask(source, grant, stored), timeout), timeout, lag)
  {
    hide Sound, IndexFacts, Evolves, Covered, NotAhead, Converged, Frontier, CounterOf;
    SoundFacts(s.world, s.agent.scope.environment);
    EvolvesReflexive(s.world, s.agent.scope.environment, lag);
    AskTokens(s, timeout, lag);
  }

  /** A token the agent holds was issued below the counter. */
  lemma AskTokens(s: System, timeout: nat, lag: nat)
    requires CheckpointOk(s.world, s.agent, timeout, lag) && CycleOk(s.world, s.agent, timeout, lag)
    ensures s.agent.checkpoint.Some? ==>
              s.agent.checkpoint.value.position.through <= CounterOf(s.world, s.agent.scope.environment)
    ensures s.agent.cycle.Some? && s.agent.cycle.value.next.Some? ==>
              s.agent.cycle.value.next.value.position.through <= CounterOf(s.world, s.agent.scope.environment)
  {
    hide Covered, NotAhead, Converged, RowsEvolve, SecretsEvolve;
  }

  /** An accepted position starts or continues a range whose upper end was read no later than it was checked. */
  lemma CheckKeeps(s: System, clock: nat, timeout: nat, lag: nat)
    requires SyncInv(s, timeout, lag)
    ensures SyncInv(Next(s, AgentSync.Event.Check(clock), timeout), timeout, lag)
  {
    hide Sound, Evolves, Covered, NotAhead, Converged;
    var a, t := s.agent, Next(s, AgentSync.Event.Check(clock), timeout);
    if t != s && a.pending.value.query.cursor.None? && t.agent.cycle.Some? {
      EmptyCycle(s.world, a.scope, t.agent.cycle.value.position);
    }
  }

  lemma EmptyCycle(w: World, scope: Scope, position: Position)
    requires position.last.None?
    ensures Covered(w, scope, position, map[]) && NotAhead(w, scope.environment, position, []) && Distinct([])
  {
  }

  // ---------------------------------------------------------------- one page

  /** Rows that are the current publications of their secrets, in key order. */
  ghost predicate CurrentRows(w: World, environment: Name, keys: seq<ChangeKey>) {
    && (forall key :: key in keys ==> key in w.changes && key.environment == environment && RowOk(w, key, w.changes[key]))
    && (forall i, j :: 0 <= i < j < |keys| ==> keys[i].sequence < keys[j].sequence)
  }

  ghost predicate OnPage(w: World, environment: Name, keys: seq<ChangeKey>, digest: Digest, uid: Id) {
    Published(w, uid, environment, digest) && ChangeKey(environment, Sequence(w, uid), uid) in keys
  }

  lemma TailRows(w: World, environment: Name, keys: seq<ChangeKey>)
    requires CurrentRows(w, environment, keys) && keys != []
    ensures CurrentRows(w, environment, keys[1..])
  {
    hide RowOk;
    assert forall i :: 0 <= i < |keys[1..]| ==> keys[1..][i] == keys[i + 1];
  }

  /** The first row's entry is the current one of its secret, and no later row is of the same secret. */
  lemma HeadRow(w: World, scope: Scope, keys: seq<ChangeKey>, digest: Digest, uid: Id)
    requires CurrentRows(w, scope.environment, keys) && keys != []
    ensures OnPage(w, scope.environment, keys, digest, uid) <==>
              (uid == keys[0].uid && Selected(w.changes[keys[0]].record, digest))
              || OnPage(w, scope.environment, keys[1..], digest, uid)
    ensures !OnPage(w, scope.environment, keys[1..], digest, keys[0].uid)
    ensures Selected(w.changes[keys[0]].record, digest) ==>
              Published(w, keys[0].uid, scope.environment, digest)
              && VisibleEntry(w.changes[keys[0]].record, scope.consumer, digest) == CurrentEntry(w, keys[0].uid, scope, digest)
  {
    hide VisibleEntry;
    assert RowOk(w, keys[0], w.changes[keys[0]]);
    assert keys == [keys[0]] + keys[1..];
    assert forall i :: 0 <= i < |keys[1..]| ==> keys[1..][i] == keys[i + 1];
  }

  /** Handling a page replaces exactly the entries of the selected secrets on it, each once. */
  lemma {:induction false} AbsorbPage(w: World, scope: Scope, keys: seq<ChangeKey>, digest: Digest, entries: map<Id, Entry>, uid: Id)
    requires CurrentRows(w, scope.environment, keys)
    ensures var after := Absorb(entries, Changes(w, keys, scope.consumer, digest));
            && (uid in after <==> uid in entries || OnPage(w, scope.environment, keys, digest, uid))
            && (uid in after ==>
                  after[uid] == if OnPage(w, scope.environment, keys, digest, uid) then CurrentEntry(w, uid, scope, digest) else entries[uid])
    ensures uid in Uids(Changes(w, keys, scope.consumer, digest)) <==> OnPage(w, scope.environment, keys, digest, uid)
    decreases |keys|
  {
    hide RowOk, VisibleEntry, Selected;
    if keys != [] {
      TailRows(w, scope.environment, keys);
      HeadRow(w, scope, keys, digest, uid);
      HeadRow(w, scope, keys, digest, keys[0].uid);
      var record := w.changes[keys[0]].record;
      hide CurrentRows, OnPage, Published;
      if Selected(record, digest) {
        var entry := VisibleEntry(record, scope.consumer, digest);
        EntryUid(record, scope.consumer, digest);
        assert record.secretUid == keys[0].uid by { RowUid(w, scope.environment, keys); }
        assert Changes(w, keys, scope.consumer, digest) == [entry] + Changes(w, keys[1..], scope.consumer, digest);
        AbsorbPage(w, scope, keys[1..], digest, entries[entry.secretUid := entry], uid);
      } else {
        assert Changes(w, keys, scope.consumer, digest) == Changes(w, keys[1..], scope.consumer, digest);
        AbsorbPage(w, scope, keys[1..], digest, entries, uid);
      }
    }
  }

  /** The same for every secret at once. */
  lemma PageEntries(w: World, scope: Scope, keys: seq<ChangeKey>, digest: Digest, entries: map<Id, Entry>)
    requires CurrentRows(w, scope.environment, keys)
    ensures var changes := Changes(w, keys, scope.consumer, digest);
            var after := Absorb(entries, changes);
            && (forall uid :: uid in after <==> uid in entries || OnPage(w, scope.environment, keys, digest, uid))
            && (forall uid :: uid in after ==>
                  after[uid] == if OnPage(w, scope.environment, keys, digest, uid) then CurrentEntry(w, uid, scope, digest) else entries[uid])
            && (forall uid :: uid in Uids(changes) <==> OnPage(w, scope.environment, keys, digest, uid))
  {
    hide RowOk, Changes, Absorb, Uids, VisibleEntry, Selected;
    forall uid
      ensures var changes := Changes(w, keys, scope.consumer, digest);
              var after := Absorb(entries, changes);
              && (uid in after <==> uid in entries || OnPage(w, scope.environment, keys, digest, uid))
              && (uid in after ==>
                    after[uid] == if OnPage(w, scope.environment, keys, digest, uid) then CurrentEntry(w, uid, scope, digest) else entries[uid])
              && (uid in Uids(changes) <==> OnPage(w, scope.environment, keys, digest, uid))
    {
      AbsorbPage(w, scope, keys, digest, entries, uid);
    }
  }

  lemma RowUid(w: World, environment: Name, keys: seq<ChangeKey>)
    requires CurrentRows(w, environment, keys) && keys != []
    ensures keys[0] in w.changes && w.changes[keys[0]].record.secretUid == keys[0].uid
  {
    assert RowOk(w, keys[0], w.changes[keys[0]]);
  }

  lemma EntryUid(record: SyncRecord, consumer: Id, digest: Digest)
    requires Selected(record, digest)
    ensures VisibleEntry(record, consumer, digest).secretUid == record.secretUid
  {
  }

  lemma {:induction false} PageIsDistinct(w: World, scope: Scope, keys: seq<ChangeKey>, digest: Digest)
    requires CurrentRows(w, scope.environment, keys)
    ensures Distinct(Uids(Changes(w, keys, scope.consumer, digest)))
    decreases |keys|
  {
    hide RowOk, VisibleEntry, Selected;
    if keys != [] {
      TailRows(w, scope.environment, keys);
      PageIsDistinct(w, scope, keys[1..], digest);
      AbsorbPage(w, scope, keys[1..], digest, map[], keys[0].uid);
      HeadRow(w, scope, keys, digest, keys[0].uid);
      var record := w.changes[keys[0]].record;
      RowUid(w, scope.environment, keys);
      hide CurrentRows, OnPage, Published;
      var rest := Changes(w, keys[1..], scope.consumer, digest);
      if Selected(record, digest) {
        EntryUid(record, scope.consumer, digest);
        var entry := VisibleEntry(record, scope.consumer, digest);
        assert Changes(w, keys, scope.consumer, digest) == [entry] + rest;
        assert Uids([entry] + rest) == [entry.secretUid] + Uids(rest);
      } else {
        assert Changes(w, keys, scope.consumer, digest) == rest;
      }
    }
  }

  /** The rows of a page are current, and leave out only archived secrets whose row has expired. */
  lemma PageRows(w: World, environment: Name, position: Position, keys: seq<ChangeKey>, last: Option<nat>, digest: Digest)
    requires Sound(w) && IsPage(w, environment, position, keys, last)
    requires position.after <= Progress(position) <= position.through
    ensures CurrentRows(w, environment, keys)
    ensures var end := if last.Some? then last.value else position.through;
            && Progress(position) <= end <= position.through
            && (forall uid :: OnPage(w, environment, keys, digest, uid) ==> Progress(position) < Sequence(w, uid) <= end)
            && (forall uid :: Published(w, uid, environment, digest) && Progress(position) < Sequence(w, uid) <= end ==>
                  if CurrentControl(w.cells[uid]).state == Archived
                  then ChangeKey(environment, Sequence(w, uid), uid) in w.changes ==> OnPage(w, environment, keys, digest, uid)
                  else OnPage(w, environment, keys, digest, uid))
  {
    hide Sound, RowOk, SyncRecordOf, Selected, PublishedOk, CurrentControl;
    SoundFacts(w, environment);
    LiveRowsPresent(w, environment, digest);
    if position.after != position.through && last.Some? { assert keys[|keys| - 1] in keys; }
  }

  lemma LiveRowsPresent(w: World, environment: Name, digest: Digest)
    requires Sound(w)
    ensures forall uid :: Published(w, uid, environment, digest) && CurrentControl(w.cells[uid]).state != Archived ==>
              ChangeKey(environment, Sequence(w, uid), uid) in w.changes
  {
    hide Sound, RowOk, Selected;
    SoundFacts(w, environment);
    forall uid | Published(w, uid, environment, digest)
      ensures CurrentControl(w.cells[uid]).state != Archived ==> ChangeKey(environment, Sequence(w, uid), uid) in w.changes
    {
      assert PublishedOk(w, uid, w.cells[uid]);
    }
  }

  /** In time: the agent's checkpoint still protects the archived rows above its frontier. */
  predicate Allowance(timeout: nat, lag: nat) {
    lag + 2 * timeout + PAGE_LIFETIME + CHECKPOINT_LIFETIME < ARCHIVE_LIFETIME
  }

  /** Within the lifetime of a checkpoint's cursors, no row above its frontier has expired. */
  lemma ArchivedRowsOutliveCheckpoint(w: World, frontier: World, environment: Name, lag: nat, uid: Id)
    requires Evolves(frontier, w, environment, lag)
    requires uid in w.cells && w.cells[uid].environment == environment && SequenceOf(w.cells[uid]).Some?
    requires Sequence(w, uid) > CounterOf(frontier, environment) && Archives(w.cells[uid])
    requires w.now + lag < frontier.now + ARCHIVE_LIFETIME
    ensures ChangeKey(environment, Sequence(w, uid), uid) in w.changes
  {
    assert SecretEvolves(frontier, w, environment, lag, uid);
  }

  lemma AbsorbCovers(w: World, a: Agent, keys: seq<ChangeKey>, last: Option<nat>, timeout: nat, lag: nat)
    requires Sound(w) && CheckpointOk(w, a, timeout, lag) && CycleOk(w, a, timeout, lag) && PendingOk(w, a, timeout, lag)
    requires a.cycle.Some? && a.pending.Some? && a.pending.value.Querying? && w.now <= a.pending.value.asked + timeout
    requires IsPage(w, a.scope.environment, a.cycle.value.position, keys, last) && Allowance(timeout, lag)
    requires CurrentRows(w, a.scope.environment, keys)
    ensures var cycle := a.cycle.value;
            var entries := Absorb(cycle.entries, Changes(w, keys, a.scope.consumer, cycle.position.digest));
            Covered(w, a.scope, cycle.position.(last := Some(if last.Some? then last.value else cycle.position.through)), entries)
  {
    hide Sound, RowOk, CheckpointOk, PendingOk, Distinct, IsPage, VisibleEntry, Frontier;
    var cycle := a.cycle.value;
    var position := cycle.position;
    var end := if last.Some? then last.value else position.through;
    var entries := Absorb(cycle.entries, Changes(w, keys, a.scope.consumer, position.digest));
    PageRows(w, a.scope.environment, position, keys, last, position.digest);
    PageEntries(w, a.scope, keys, position.digest, cycle.entries);
    if !position.snapshot { UnexpiredRows(w, a, timeout, lag); }
    hide CurrentRows, Selected, OnPage, Changes, Absorb;
  }

  lemma UnexpiredRows(w: World, a: Agent, timeout: nat, lag: nat)
    requires CheckpointOk(w, a, timeout, lag) && CycleOk(w, a, timeout, lag) && PendingOk(w, a, timeout, lag)
    requires a.cycle.Some? && !a.cycle.value.position.snapshot
    requires a.pending.Some? && a.pending.value.Querying? && w.now <= a.pending.value.asked + timeout && Allowance(timeout, lag)
    ensures forall uid :: uid in w.cells && w.cells[uid].environment == a.scope.environment && SequenceOf(w.cells[uid]).Some?
                          && Sequence(w, uid) > a.cycle.value.position.after && Archives(w.cells[uid]) ==>
              ChangeKey(a.scope.environment, Sequence(w, uid), uid) in w.changes
  {
    hide Evolves, Covered, NotAhead, Distinct, Converged;
    forall uid | uid in w.cells && w.cells[uid].environment == a.scope.environment && SequenceOf(w.cells[uid]).Some?
                 && Sequence(w, uid) > a.cycle.value.position.after && Archives(w.cells[uid])
      ensures ChangeKey(a.scope.environment, Sequence(w, uid), uid) in w.changes
    {
      ArchivedRowsOutliveCheckpoint(w, a.frontier, a.scope.environment, lag, uid);
    }
  }

  /** A page delivers no secret that an earlier page of the cycle delivered. */
  lemma AbsorbDelivers(w: World, a: Agent, keys: seq<ChangeKey>, last: Option<nat>, timeout: nat, lag: nat)
    requires Sound(w) && CycleOk(w, a, timeout, lag) && a.cycle.Some?
    requires IsPage(w, a.scope.environment, a.cycle.value.position, keys, last)
    requires CurrentRows(w, a.scope.environment, keys)
    ensures var cycle := a.cycle.value;
            var changes := Changes(w, keys, a.scope.consumer, cycle.position.digest);
            var end := if last.Some? then last.value else cycle.position.through;
            var entries := Absorb(cycle.entries, changes);
            && Progress(cycle.position) <= end <= cycle.position.through
            && Distinct(cycle.delivered + Uids(changes))
            && (forall uid :: uid in entries <==> uid in cycle.delivered + Uids(changes))
            && NotAhead(w, a.scope.environment, cycle.position.(last := Some(end)), cycle.delivered + Uids(changes))
  {
    hide Sound, RowOk, IsPage, Selected, OnPage, Changes, Absorb, Uids, Covered, Frontier;
    var cycle := a.cycle.value;
    var position := cycle.position;
    var changes := Changes(w, keys, a.scope.consumer, position.digest);
    PageRows(w, a.scope.environment, position, keys, last, position.digest);
    PageIsDistinct(w, a.scope, keys, position.digest);
    PageEntries(w, a.scope, keys, position.digest, cycle.entries);
    DeliveredApart(w, a.scope.environment, keys, position, if last.Some? then last.value else position.through,
                   cycle.delivered, Uids(changes));
  }

  lemma DeliveredApart(w: World, environment: Name, keys: seq<ChangeKey>, position: Position, end: nat,
                       delivered: seq<Id>, added: seq<Id>)
    requires NotAhead(w, environment, position, delivered) && Distinct(delivered) && Distinct(added)
    requires position.after <= Progress(position) <= end <= position.through
    requires forall uid :: uid in added <==> OnPage(w, environment, keys, position.digest, uid)
    requires forall uid :: OnPage(w, environment, keys, position.digest, uid) ==> Progress(position) < Sequence(w, uid) <= end
    ensures Distinct(delivered + added)
    ensures NotAhead(w, environment, position.(last := Some(end)), delivered + added)
  {
    hide Selected;
    assert forall uid :: uid in delivered ==> uid !in added;
    DistinctConcat(delivered, added);
    forall uid | uid in delivered + added
      ensures uid in w.cells && SequenceOf(w.cells[uid]).Some? && w.cells[uid].environment == environment
      ensures position.after < Sequence(w, uid) <= end || Sequence(w, uid) > position.through
    {
      assert uid in delivered || uid in added;
    }
  }

  lemma DistinctConcat(a: seq<Id>, b: seq<Id>)
    requires Distinct(a) && Distinct(b) && (forall uid :: uid in a ==> uid !in b)
    ensures Distinct(a + b)
  {
    var c := a + b;
    forall i, j | 0 <= i < j < |c| ensures c[i] != c[j] {
      if j >= |a| {
        assert c[j] == b[j - |a|];
        if i < |a| { assert c[i] in a && c[j] in b; } else { assert c[i] == b[i - |a|]; }
      }
    }
  }

  /** A completed cycle leaves the view converged at the cycle's upper end. */
  lemma CompletedConverges(w: World, a: Agent, position: Position, entries: map<Id, Entry>, delivered: seq<Id>)
    requires Covered(w, a.scope, position.(last := Some(position.through)), entries)
    requires NotAhead(w, a.scope.environment, position.(last := Some(position.through)), delivered)
    requires forall uid :: uid in entries <==> uid in delivered
    requires IndexFacts(w, a.scope.environment)
    requires position.snapshot ==> position.after == 0
    requires !position.snapshot ==> Converged(w, a.scope, position.digest, a.view, position.after)
    ensures Converged(w, a.scope, position.digest, if position.snapshot then entries else a.view + entries, position.through)
  {
    hide RowOk;
    var view := if position.snapshot then entries else a.view + entries;
    forall uid | Published(w, uid, a.scope.environment, position.digest) && Sequence(w, uid) <= position.through
      ensures Agrees(w, a.scope, position.digest, view, uid)
    {
      assert PublishedOk(w, uid, w.cells[uid]);
      if Sequence(w, uid) <= position.after { assert uid !in entries; }
    }
  }

  /** The agent once a page that is not the last of its cycle has been handled. */
  lemma ContinuedOk(w: World, a: Agent, last: nat, entries: map<Id, Entry>, delivered: seq<Id>, timeout: nat, lag: nat)
    requires CheckpointOk(w, a, timeout, lag) && CycleOk(w, a, timeout, lag) && DeltaOk(w, a, lag) && a.cycle.Some?
    requires Progress(a.cycle.value.position) <= last <= a.cycle.value.position.through
    requires Distinct(delivered) && (forall uid :: uid in entries <==> uid in delivered)
    requires NotAhead(w, a.scope.environment, a.cycle.value.position.(last := Some(last)), delivered)
    requires Covered(w, a.scope, a.cycle.value.position.(last := Some(last)), entries)
    ensures var next := a.cycle.value.position.(kind := Page, last := Some(last));
            var b := a.(pending := None, cycle := Some(Cycle(next, a.cycle.value.query, entries, delivered,
                                                             Some(Encode(a.scope, next)), a.cycle.value.seen)));
            CheckpointOk(w, b, timeout, lag) && CycleOk(w, b, timeout, lag) && PendingOk(w, b, timeout, lag) && DeltaOk(w, b, lag)
  {
    hide Distinct, Evolves, Frontier, Converged;
    var next := a.cycle.value.position.(kind := Page, last := Some(last));
    SamePosition(w, a.scope, a.cycle.value.position.(last := Some(last)), next, entries, delivered);
    hide Covered, NotAhead;
  }

  lemma SamePosition(w: World, scope: Scope, p: Position, q: Position, entries: map<Id, Entry>, delivered: seq<Id>)
    requires Covered(w, scope, p, entries) && NotAhead(w, scope.environment, p, delivered)
    requires q == p.(kind := Page)
    ensures Covered(w, scope, q, entries) && NotAhead(w, scope.environment, q, delivered)
  {
  }

  /** The agent once the last page of its cycle has been handled. */
  lemma CompletedOk(w: World, a: Agent, entries: map<Id, Entry>, delivered: seq<Id>, timeout: nat, lag: nat)
    requires CheckpointOk(w, a, timeout, lag) && CycleOk(w, a, timeout, lag) && a.cycle.Some?
    requires IndexFacts(w, a.scope.environment)
    requires forall uid :: uid in entries <==> uid in delivered
    requires NotAhead(w, a.scope.environment, a.cycle.value.position.(last := Some(a.cycle.value.position.through)), delivered)
    requires Covered(w, a.scope, a.cycle.value.position.(last := Some(a.cycle.value.position.through)), entries)
    ensures var cycle := a.cycle.value;
            var position := cycle.position;
            var reuse := cycle.query.syncCursor.Some? && position.after == position.through;
            var b := Agent(a.scope,
                           if reuse then cycle.query.syncCursor
                           else Some(Encode(a.scope, position.(kind := Checkpoint, after := position.through, last := None))),
                           if position.snapshot then entries else a.view + entries,
                           if reuse then a.frontier else cycle.seen,
                           Some(Delta(position.(last := Some(position.through)), entries, delivered, a.checkpoint, cycle.seen)),
                           None, None);
            CheckpointOk(w, b, timeout, lag) && CycleOk(w, b, timeout, lag) && PendingOk(w, b, timeout, lag) && DeltaOk(w, b, lag)
  {
    hide Distinct, Evolves, Frontier, IndexFacts, Covered, NotAhead, Converged;
    CompletedConverges(w, a, a.cycle.value.position, entries, delivered);
  }

  lemma AnswerKeeps(s: System, keys: seq<ChangeKey>, last: Option<nat>, timeout: nat, lag: nat)
    requires SyncInv(s, timeout, lag) && Allowance(timeout, lag)
    ensures SyncInv(Next(s, Answer(keys, last), timeout), timeout, lag)
  {
    var a, w := s.agent, s.world;
    var t := Next(s, Answer(keys, last), timeout);
    if t != s {
      AnswerRows(s, keys, last, timeout, lag);
      AbsorbCovers(w, a, keys, last, timeout, lag);
      AbsorbDelivers(w, a, keys, last, timeout, lag);
      SoundFacts(w, a.scope.environment);
      hide Sound, CurrentRows, IsPage, Changes, Absorb, Uids, Distinct, Evolves, CheckpointOk, CycleOk, PendingOk, DeltaOk, IndexFacts,
           Covered, NotAhead;
      var changes := Changes(w, keys, a.scope.consumer, a.cycle.value.position.digest);
      var entries, delivered := Absorb(a.cycle.value.entries, changes), a.cycle.value.delivered + Uids(changes);
      if last.Some? { ContinuedOk(w, a, last.value, entries, delivered, timeout, lag); }
      else { CompletedOk(w, a, entries, delivered, timeout, lag); }
    }
  }

  lemma AnswerRows(s: System, keys: seq<ChangeKey>, last: Option<nat>, timeout: nat, lag: nat)
    requires SyncInv(s, timeout, lag) && s.agent.cycle.Some?
    requires IsPage(s.world, s.agent.scope.environment, s.agent.cycle.value.position, keys, last)
    ensures CurrentRows(s.world, s.agent.scope.environment, keys)
  {
    hide Sound, IsPage, Covered, NotAhead, Distinct, Evolves, Converged;
    PageRows(s.world, s.agent.scope.environment, s.agent.cycle.value.position, keys, last, s.agent.cycle.value.position.digest);
  }

  // ---------------------------------------------------------------- every behaviour

  /** Any reachable table, and an agent that has not synchronized yet. */
  function Start(before: seq<Step>, scope: Scope): System {
    System(Run(Genesis, before), Agent(scope, None, map[], Genesis, None, None, None))
  }

  lemma EventKeeps(s: System, event: Event, timeout: nat, lag: nat)
    requires SyncInv(s, timeout, lag) && Allowance(timeout, lag) && EventLag(event) <= lag
    ensures SyncInv(Next(s, event, timeout), timeout, lag)
    ensures Next(s, event, timeout).agent.scope == s.agent.scope
  {
    hide SyncInv, Allowance, Apply, Decide, IsPage;
    match event
    case Move(step) => MoveKeeps(s, step, timeout, lag);
    case Ask(source, grant, stored) => AskKeeps(s, source, grant, stored, timeout, lag);
    case Check(clock) => CheckKeeps(s, clock, timeout, lag);
    case Answer(keys, last) => AnswerKeeps(s, keys, last, timeout, lag);
    case Drop => DropKeeps(s, timeout, lag);
  }

  lemma DropKeeps(s: System, timeout: nat, lag: nat)
    requires SyncInv(s, timeout, lag)
    ensures SyncInv(Next(s, Drop, timeout), timeout, lag)
  {
    hide Sound, Frontier, Covered, NotAhead, Distinct, Converged;
  }

  lemma {:induction false} BehaviourKeeps(s: System, events: seq<Event>, timeout: nat, lag: nat)
    requires SyncInv(s, timeout, lag) && Allowance(timeout, lag) && Timely(events, lag)
    ensures SyncInv(Behave(s, events, timeout), timeout, lag)
    ensures Behave(s, events, timeout).agent.scope == s.agent.scope
    decreases |events|
  {
    hide SyncInv, Allowance, Next;
    if events != [] {
      EventKeeps(s, events[0], timeout, lag);
      assert forall i :: 0 <= i < |events[1..]| ==> events[1..][i] == events[i + 1];
      BehaviourKeeps(Next(s, events[0], timeout), events[1..], timeout, lag);
    }
  }

  lemma StartKeeps(before: seq<Step>, scope: Scope, timeout: nat, lag: nat)
    requires Allowance(timeout, lag)
    ensures SyncInv(Start(before, scope), timeout, lag)
  {
    GenesisSound();
    hide Sound;
    RunIsSound(Genesis, before);
  }

  lemma ReachableKeeps(before: seq<Step>, scope: Scope, events: seq<Event>, timeout: nat, lag: nat)
    requires Allowance(timeout, lag) && Timely(events, lag)
    ensures SyncInv(Behave(Start(before, scope), events, timeout), timeout, lag)
    ensures Behave(Start(before, scope), events, timeout).agent.scope == scope
  {
    hide SyncInv;
    StartKeeps(before, scope, timeout, lag);
    BehaviourKeeps(Start(before, scope), events, timeout, lag);
  }

  // ---------------------------------------------------------------- main results

  /**
   * Whatever writes, retries, expirations, lost responses and restarts happen, an agent that holds a
   * checkpoint holds, for every secret published at or below the checkpoint, exactly the entry of that
   * secret's current revision, revoked entries included. Only an archived secret whose row has expired may
   * be missing, and it is not shown.
   */
  lemma SyncConverges(before: seq<Step>, scope: Scope, events: seq<Event>, timeout: nat, lag: nat, uid: Id)
    requires Allowance(timeout, lag) && Timely(events, lag)
    ensures var s := Behave(Start(before, scope), events, timeout);
            s.agent.checkpoint.Some? ==>
              var position := s.agent.checkpoint.value.position;
              Published(s.world, uid, scope.environment, position.digest) && Sequence(s.world, uid) <= position.through ==>
                && Agrees(s.world, scope, position.digest, s.agent.view, uid)
                && Shown(s.agent.view, uid) == Live(CurrentEntry(s.world, uid, scope, position.digest))
  {
    hide Behave, SyncInv, Published, Agrees, CurrentEntry, Shown, Live;
    var s := Behave(Start(before, scope), events, timeout);
    ReachableKeeps(before, scope, events, timeout, lag);
    CheckpointAgrees(s, timeout, lag, uid);
  }

  lemma CheckpointAgrees(s: System, timeout: nat, lag: nat, uid: Id)
    requires SyncInv(s, timeout, lag)
    ensures s.agent.checkpoint.Some? ==>
              var position := s.agent.checkpoint.value.position;
              Published(s.world, uid, s.agent.scope.environment, position.digest) && Sequence(s.world, uid) <= position.through ==>
                && Agrees(s.world, s.agent.scope, position.digest, s.agent.view, uid)
                && Shown(s.agent.view, uid) == Live(CurrentEntry(s.world, uid, s.agent.scope, position.digest))
  {
    hide Sound, CycleOk, PendingOk, DeltaOk, Frontier;
  }

  predicate SnapshotHas(w: World, scope: Scope, digest: Digest, uid: Id, key: ChangeKey) {
    key in w.changes && key.environment == scope.environment && key.uid == uid && Selected(w.changes[key].record, digest)
  }

  /** The view holds the entry a snapshot taken now would deliver, and shows nothing if it would deliver none. */
  ghost predicate SnapshotShows(w: World, scope: Scope, digest: Digest, uid: Id, view: map<Id, Entry>) {
    && (forall key :: SnapshotHas(w, scope, digest, uid, key) ==>
          uid in view && view[uid] == VisibleEntry(w.changes[key].record, scope.consumer, digest))
    && ((forall key :: !SnapshotHas(w, scope, digest, uid, key)) ==> Shown(view, uid) == None)
  }

  /** At the head of the index, an agent's view of every published secret is what a fresh snapshot would show. */
  lemma SyncedIsSnapshot(before: seq<Step>, scope: Scope, events: seq<Event>, timeout: nat, lag: nat, uid: Id)
    requires Allowance(timeout, lag) && Timely(events, lag)
    ensures var s := Behave(Start(before, scope), events, timeout);
            s.agent.checkpoint.Some? ==>
              var position := s.agent.checkpoint.value.position;
              position.through == CounterOf(s.world, scope.environment)
              && Published(s.world, uid, scope.environment, position.digest) ==>
                SnapshotShows(s.world, scope, position.digest, uid, s.agent.view)
  {
    var s := Behave(Start(before, scope), events, timeout);
    ReachableKeeps(before, scope, events, timeout, lag);
    if s.agent.checkpoint.Some? {
      var position := s.agent.checkpoint.value.position;
      if position.through == CounterOf(s.world, scope.environment) && Published(s.world, uid, scope.environment, position.digest) {
        SyncConverges(before, scope, events, timeout, lag, uid);
        hide Behave;
        SnapshotOfCurrent(s.world, scope, position.digest, uid, s.agent.view);
      }
    }
  }

  lemma SnapshotOfCurrent(w: World, scope: Scope, digest: Digest, uid: Id, view: map<Id, Entry>)
    requires Sound(w) && Published(w, uid, scope.environment, digest)
    ensures Sequence(w, uid) <= CounterOf(w, scope.environment)
    ensures Agrees(w, scope, digest, view, uid) ==> SnapshotShows(w, scope, digest, uid, view)
  {
    hide Sound, VisibleEntry, CounterOf, SyncRecordOf;
    RowOfCurrent(w, scope, digest, uid);
    if CurrentControl(w.cells[uid]).state == Archived { ArchivedShowsNothing(w, scope, digest, uid); }
  }

  /** The rows of a published secret are its current publication, and there is one unless it is archived. */
  lemma RowOfCurrent(w: World, scope: Scope, digest: Digest, uid: Id)
    requires Sound(w) && Published(w, uid, scope.environment, digest)
    ensures Sequence(w, uid) <= CounterOf(w, scope.environment)
    ensures forall key :: SnapshotHas(w, scope, digest, uid, key) ==>
              w.changes[key].record == SyncRecordOf(uid, CurrentControl(w.cells[uid])) && key.sequence == Sequence(w, uid)
    ensures CurrentControl(w.cells[uid]).state != Archived ==>
              SnapshotHas(w, scope, digest, uid, ChangeKey(scope.environment, Sequence(w, uid), uid))
  {
    SoundFacts(w, scope.environment);
    hide Sound, Selected, SyncRecordOf;
    assert PublishedOk(w, uid, w.cells[uid]);
    var key := ChangeKey(scope.environment, Sequence(w, uid), uid);
    if key in w.changes { assert RowOk(w, key, w.changes[key]); }
  }

  lemma ArchivedShowsNothing(w: World, scope: Scope, digest: Digest, uid: Id)
    requires Published(w, uid, scope.environment, digest) && CurrentControl(w.cells[uid]).state == Archived
    ensures Live(CurrentEntry(w, uid, scope, digest)) == None
  {
  }

  /** No cycle delivers a secret twice, counting the page about to be delivered. */
  lemma DeliveredOnce(before: seq<Step>, scope: Scope, events: seq<Event>, timeout: nat, lag: nat,
                      keys: seq<ChangeKey>, last: Option<nat>)
    requires Allowance(timeout, lag) && Timely(events, lag)
    requires var s := Behave(Start(before, scope), events, timeout);
             s.agent.cycle.Some? && IsPage(s.world, scope.environment, s.agent.cycle.value.position, keys, last)
    ensures var s := Behave(Start(before, scope), events, timeout);
            (forall key :: key in keys ==> key in s.world.changes)
            && Distinct(s.agent.cycle.value.delivered
                        + Uids(Changes(s.world, keys, scope.consumer, s.agent.cycle.value.position.digest)))
  {
    var s := Behave(Start(before, scope), events, timeout);
    ReachableKeeps(before, scope, events, timeout, lag);
    hide Behave, Sound, CheckpointOk, IsPage;
    AnswerRows(s, keys, last, timeout, lag);
    AbsorbDelivers(s.world, s.agent, keys, last, timeout, lag);
  }

  /**
   * Whenever a page is read for a cursor derived from a checkpoint, every archived secret published above
   * the checkpoint still has its row: its revocation cannot be missed.
   */
  lemma RevocationOutlivesCheckpoints(before: seq<Step>, scope: Scope, events: seq<Event>, timeout: nat, lag: nat, uid: Id)
    requires Allowance(timeout, lag) && Timely(events, lag)
    requires var s := Behave(Start(before, scope), events, timeout);
             && s.agent.cycle.Some? && !s.agent.cycle.value.position.snapshot
             && s.agent.pending.Some? && s.agent.pending.value.Querying? && s.world.now <= s.agent.pending.value.asked + timeout
             && uid in s.world.cells && s.world.cells[uid].environment == scope.environment
             && SequenceOf(s.world.cells[uid]).Some? && Sequence(s.world, uid) > s.agent.cycle.value.position.after
             && Archives(s.world.cells[uid])
    ensures var s := Behave(Start(before, scope), events, timeout);
            ChangeKey(scope.environment, Sequence(s.world, uid), uid) in s.world.changes
  {
    var s := Behave(Start(before, scope), events, timeout);
    ReachableKeeps(before, scope, events, timeout, lag);
    hide Behave, Sound, Evolves, Covered, NotAhead, Distinct, Converged;
    ArchivedRowsOutliveCheckpoint(s.world, s.agent.frontier, scope.environment, lag, uid);
  }

  /** An agent's own token is reset exactly when its item is gone, it has expired, or the grant has changed. */
  lemma ResetOnlyWhenDue(before: seq<Step>, scope: Scope, events: seq<Event>, timeout: nat, lag: nat, clock: nat)
    requires Allowance(timeout, lag) && Timely(events, lag)
    requires var s := Behave(Start(before, scope), events, timeout);
             && s.agent.pending.Some? && s.agent.pending.value.Asked? && TokenOf(s.agent.pending.value.query).Some?
    ensures var s := Behave(Start(before, scope), events, timeout);
            var request := s.agent.pending.value;
            var grant := request.grant;
            grant.active && grant.consumer == scope.consumer && grant.environment == scope.environment
            && request.state.Some? && request.state.value.ready ==>
              && Decide(request.state, request.query, grant, scope, clock, s.world.now) != Refused(BadRequest)
              && (Decide(request.state, request.query, grant, scope, clock, s.world.now) == Refused(ResetRequired)
                  <==> !request.query.stored || TokenOf(request.query).value.expires <= s.world.now
                       || TokenOf(request.query).value.position.digest != grant.digest)
  {
    var s := Behave(Start(before, scope), events, timeout);
    ReachableKeeps(before, scope, events, timeout, lag);
    hide Behave, Sound, Covered, NotAhead, Distinct, Converged;
  }
}
